/** Moves of a three-server cluster, put together into concrete runs. */
module Script {
  import opened Types
  import opened Membership
  import opened RaftLog
  import opened Event
  import opened RaftCore
  import FollowerRole
  import LeaderRole
  import opened RaftNode
  import opened Merging
  import opened Refinement
  import opened RefineRoles
  import opened Cluster
  import opened Safety
  import opened ThreeServers
  import Theorems
  import P = Protocol

  function Last(run: Run): ClusterState
    requires run.states != []
  {
    run.states[|run.states| - 1]
  }

  ghost predicate Good(mc: Machine, node: Node) {
    mc.node == node && mc.durable == node.core.p && Fed(mc) && CoreOk(V, node.core) && node.core.opts == O
  }

  /** The machine was fed what is committed, as far as the log still has it. */
  ghost predicate Fed(mc: Machine) {
    var core := mc.node.core;
    core.lastApplied == core.commitIndex && (core.commitIndex <= |core.p.log.entries| ==> AppliedOk(mc))
  }

  /** The run so far ends with these three servers. */
  ghost predicate Ends(run: Run, nodes: map<NodeId, Node>) {
    && run.states != [] && IsRun(run) && nodes.Keys == V
    && Last(run).voters == V && Last(run).machines.Keys == V
    && forall i :: i in V ==> Good(Last(run).machines[i], nodes[i])
  }

  ghost predicate InNet(run: Run, m: Message) {
    run.states != [] && m in Last(run).net
  }

  function With(nodes: map<NodeId, Node>, i: NodeId, node: Node): map<NodeId, Node> {
    nodes[i := node]
  }

  /** Nothing sent is ever unsent. */
  ghost predicate SentSince(run: Run, run': Run) {
    run.states != [] && run'.states != [] && Last(run).net <= Last(run').net
  }

  ghost predicate SentMore(run: Run, run': Run, more: set<Message>) {
    run.states != [] && run'.states != [] && Last(run').net == Last(run).net + more
  }

  /** Every log acknowledged so far ended with its request or in its leader's own term. */
  ghost predicate Truly(run: Run) {
    run.states != [] && IsRun(run) && Theorems.LocallyHonest(run)
  }

  /** The longer run goes on from the other by one move; nothing sent is ever unsent. */
  ghost predicate Onto(run: Run, run': Run) {
    && run.states != [] && |run'.states| == |run.states| + 1
    && run.states <= run'.states && run.moves <= run'.moves
    && Last(run).net <= Last(run').net
  }

  /** One more move. */
  lemma Extend(run: Run, i: NodeId, step: Step) returns (run': Run)
    requires run.states != [] && IsRun(run) && Possible(Last(run), i, step)
    ensures run' == Run(run.states + [Do(Last(run), i, step)], run.moves + [Move(i, step)])
    ensures Last(run') == Do(Last(run), i, step) && IsRun(run')
  {
    hide Possible, Do, Initial;
    run' := Run(run.states + [Do(Last(run), i, step)], run.moves + [Move(i, step)]);
    forall k | 0 <= k < |run'.moves|
      ensures Possible(run'.states[k], run'.moves[k].who, run'.moves[k].step)
      ensures run'.states[k + 1] == Do(run'.states[k], run'.moves[k].who, run'.moves[k].step)
    {
      if k < |run.moves| {
        assert run'.states[k] == run.states[k] && run'.states[k + 1] == run.states[k + 1];
        assert run'.moves[k] == run.moves[k];
      }
    }
  }

  /** What the move acknowledges, if anything, ends right. */
  ghost predicate EndsRight(c: ClusterState, i: NodeId, step: Step, log: seq<Entry>) {
    Theorems.Acknowledges(c, i, step) ==>
      |log| == step.m.body.prevLogIndex + |step.m.body.entries| || P.LastTerm(log) == step.m.term
  }

  lemma ExtendTruly(run: Run, i: NodeId, step: Step, run': Run)
    requires Truly(run) && Possible(Last(run), i, step) && IsRun(run')
    requires run' == Run(run.states + [Do(Last(run), i, step)], run.moves + [Move(i, step)])
    requires i in Last(run').machines && EndsRight(Last(run), i, step, Theorems.LogOf(Last(run'), i))
    ensures Truly(run')
  {
    hide Possible, Do, Theorems.Acknowledges;
    forall k | 0 <= k < |run'.moves|
               && Theorems.Acknowledges(run'.states[k], run'.moves[k].who, run'.moves[k].step)
      ensures Theorems.LocallyHonestMove(run', k)
    {
      if k < |run.moves| {
        assert run'.states[k] == run.states[k] && run'.states[k + 1] == run.states[k + 1];
        assert run'.moves[k] == run.moves[k];
        assert Theorems.LocallyHonestMove(run, k);
      }
    }
  }

  /** The step is one the runtime can carry through. */
  ghost predicate Sane(was: Node, node: Node, effects: Effects) {
    && effects.sendSnapshots == [] && (effects.persist || node.core.p == was.core.p)
    && CoreOk(V, node.core) && node.core.opts == O && node.core.lastApplied == was.core.lastApplied
    && (|| KeepsCommitted(was.core, node.core)
        || node.core.commitIndex == was.core.commitIndex > |node.core.p.log.entries|)
  }

  /** What was committed stays, and perhaps more is. */
  ghost predicate KeepsCommitted(was: Core, core: Core) {
    && was.commitIndex <= core.commitIndex <= |core.p.log.entries| && was.commitIndex <= |was.p.log.entries|
    && was.p.log.entries[..was.commitIndex] <= core.p.log.entries
  }

  lemma EndsAt(run: Run, nodes: map<NodeId, Node>, i: NodeId)
    requires i in V && Ends(run, nodes)
    ensures i in nodes && run.states != [] && IsRun(run) && Last(run).voters == V && Last(run).machines.Keys == V
    ensures Good(Last(run).machines[i], nodes[i])
  {
    hide IsRun, Good;
  }

  lemma EndsAgain(run: Run, nodes: map<NodeId, Node>, run': Run, i: NodeId, node: Node)
    requires i in V && Ends(run, nodes) && run'.states != [] && IsRun(run')
    requires Last(run').voters == V && Last(run').machines.Keys == V && Good(Last(run').machines[i], node)
    requires forall j :: j in Last(run).machines && j != i ==> Last(run').machines[j] == Last(run).machines[j]
    ensures Ends(run', With(nodes, i, node))
  {
    hide IsRun, Good;
  }

  function Applying(node: Node): Node {
    Node(node.core.(lastApplied := node.core.commitIndex), node.role)
  }

  /** A server moves; the runtime persists, sends and applies. */
  lemma Moves(run: Run, nodes: map<NodeId, Node>, i: NodeId, step: Step, node: Node, effects: Effects)
      returns (run': Run)
    requires i in V && i in nodes && run.states != [] && !step.CrashStep? && Possible(Last(run), i, step)
    requires NodeStep(Last(run), i, step) == (node, effects)
    requires Ends(run, nodes) && Sane(nodes[i], node, effects)
    requires EndsRight(Last(run), i, step, node.core.p.log.entries) || !Truly(run)
    ensures Ends(run', With(nodes, i, Applying(node))) && Onto(run, run') && (Truly(run) ==> Truly(run'))
    ensures SentMore(run, run', Msgs(effects))
    ensures run'.moves == run.moves + [Move(i, step)]
  {
    hide NodeStep, IsRun, Possible, Do, Ends, Msgs, Truly, EndsRight, Good, Sane;
    EndsAt(run, nodes, i);
    run' := Extend(run, i, step);
    StaysGood(Last(run), i, step, nodes[i], node, effects);
    EndsAgain(run, nodes, run', i, Applying(node));
    if Truly(run) {
      ExtendTruly(run, i, step, run');
    }
  }

  lemma StaysGood(c: ClusterState, i: NodeId, step: Step, was: Node, node: Node, effects: Effects)
    requires Possible(c, i, step) && !step.CrashStep? && NodeStep(c, i, step) == (node, effects)
    requires Good(c.machines[i], was) && Sane(was, node, effects)
    ensures var c' := Do(c, i, step);
            && c'.voters == c.voters && c'.machines.Keys == c.machines.Keys && c'.net == c.net + Msgs(effects)
            && (forall j :: j in c.machines && j != i ==> c'.machines[j] == c.machines[j])
            && Good(c'.machines[i], Applying(node)) && c'.machines[i].node.core.p == node.core.p
  {
    hide NodeStep, Msgs, CoreOk, AppliedOk, Do;
    DoShape(c, i, step, node, effects);
    UnappliedOk(node.core, node.core.commitIndex);
    if KeepsCommitted(was.core, node.core) {
      SaneMeans(c.machines[i], was, node, effects);
      FedMachine(c, i, step, node, effects);
      FedAll(Do(c, i, step).machines[i]);
    } else {
      NothingFed(c, i, step, node, effects);
    }
  }

  lemma FedAll(mc: Machine)
    requires AppliedOk(mc)
    ensures mc.node.core.lastApplied == mc.node.core.commitIndex
  {
  }

  /** With nothing committed past what was applied, nothing is applied. */
  lemma NothingFed(c: ClusterState, i: NodeId, step: Step, node: Node, effects: Effects)
    requires Possible(c, i, step) && !step.CrashStep? && NodeStep(c, i, step) == (node, effects)
    requires effects.sendSnapshots == [] && node.core.commitIndex == node.core.lastApplied
    ensures Do(c, i, step).machines[i].node == node
  {
    hide NodeStep;
  }

  lemma SaneMeans(mc: Machine, was: Node, node: Node, effects: Effects)
    requires Good(mc, was) && Sane(was, node, effects) && KeepsCommitted(was.core, node.core)
    ensures var core := node.core;
            && Plain(core.p.log) && core.commitIndex <= |core.p.log.entries|
            && (forall k :: 0 <= k < |core.p.log.entries| ==> core.p.log.entries[k].payload.Command?)
            && |mc.applied| == core.lastApplied <= core.commitIndex
            && mc.applied == core.p.log.entries[..core.lastApplied]
  {
  }

  lemma Ticks(run: Run, nodes: map<NodeId, Node>, i: NodeId, node: Node, effects: Effects) returns (run': Run)
    requires i in V && i in nodes
    requires StepEvent(nodes[i], Tick(true)) == (node, effects) && Ends(run, nodes) && Sane(nodes[i], node, effects)
    ensures Ends(run', With(nodes, i, Applying(node))) && Onto(run, run') && (Truly(run) ==> Truly(run'))
    ensures SentMore(run, run', Msgs(effects))
  {
    hide StepEvent, IsRun, Do, Sane, Ends, CoreOk, AppliedOk, Msgs, Truly;
    EndsAt(run, nodes, i);
    run' := Moves(run, nodes, i, TickStep(true), node, effects);
  }

  /** The message makes the node acknowledge no log. */
  predicate Quiet(node: Node, m: Message) {
    m.body.AppendRequest? && node.role.Follower? ==> !FollowerRole.PrevMatches(node.core.p.log, m.body)
  }

  /** The log ends with the request. */
  predicate Right(m: Message, log: seq<Entry>) {
    m.body.AppendRequest? && |log| == m.body.prevLogIndex + |m.body.entries|
  }

  /** The delivery of a message that is acknowledged rightly, if at all. */
  lemma Delivers(run: Run, nodes: map<NodeId, Node>, m: Message, node: Node, effects: Effects) returns (run': Run)
    requires m.to in V && m.to in nodes && m.from in V && m.from != m.to && InNet(run, m)
    requires StepEvent(nodes[m.to], Receive(m, false)) == (node, effects)
    requires Sane(nodes[m.to], node, effects) && (Quiet(nodes[m.to], m) || Right(m, node.core.p.log.entries))
    requires Ends(run, nodes)
    ensures Ends(run', With(nodes, m.to, Applying(node))) && Onto(run, run') && (Truly(run) ==> Truly(run'))
    ensures SentMore(run, run', Msgs(effects))
  {
    hide StepEvent, IsRun, Do, Sane, Ends, CoreOk, AppliedOk, Msgs, Truly;
    EndsAt(run, nodes, m.to);
    run' := Moves(run, nodes, m.to, DeliverStep(m, false), node, effects);
  }

  lemma ProposesAt(run: Run, nodes: map<NodeId, Node>, i: NodeId, command: Bytes, r: ProposeOutcome) returns (run': Run)
    requires i in V && i in nodes && r == Propose(nodes[i], command) && r.Proposed?
    requires Ends(run, nodes) && Sane(nodes[i], r.node, r.effects)
    ensures Ends(run', With(nodes, i, Applying(r.node))) && Onto(run, run') && (Truly(run) ==> Truly(run'))
    ensures SentMore(run, run', Msgs(r.effects))
  {
    hide Propose, IsRun, Do, Sane, Ends, CoreOk, AppliedOk, Msgs, Truly;
    EndsAt(run, nodes, i);
    run' := Moves(run, nodes, i, ProposeStep(command), r.node, r.effects);
  }

  /** A server restarts from what was durable. */
  lemma Crashes(run: Run, nodes: map<NodeId, Node>, id: NodeId, term: Term, vote: Option<NodeId>, entries: seq<Entry>,
                commit: LogIndex, role: Role) returns (run': Run)
    requires id in V && id in nodes && Commands(entries)
    requires nodes[id] == Server(id, term, vote, entries, commit, role) && Ends(run, nodes)
    ensures Ends(run', With(nodes, id, Server(id, term, vote, entries, 0, Follower(None)))) && Onto(run, run')
    ensures Truly(run) ==> Truly(run')
  {
    hide IsRun, Do, Ends, Commands, Truly;
    EndsAt(run, nodes, id);
    run' := Extend(run, id, CrashStep);
    var (node, effects) := NodeStep(Last(run), id, CrashStep);
    ServerOk(id, term, vote, entries, 0, Follower(None));
    DoShape(Last(run), id, CrashStep, node, effects);
    FedMachine(Last(run), id, CrashStep, node, effects);
    assert Good(Last(run').machines[id], node);
    EndsAgain(run, nodes, run', id, node);
    if Truly(run) {
      ExtendTruly(run, id, CrashStep, run');
    }
  }

  // ----- Elections -----

  /** The candidate has asked every other server. */
  ghost predicate AskedAll(run: Run, id: NodeId, term: Term, entries: seq<Entry>) {
    forall to :: to in V && to != id ==> InNet(run, Message(id, to, term, VoteRequest(|entries|, P.LastTerm(entries))))
  }

  /** A follower sounds out another one. */
  lemma SoundsOut(run: Run, nodes: map<NodeId, Node>, id: NodeId, term: Term, vote: Option<NodeId>,
                  entries: seq<Entry>, commit: LogIndex, leader: Option<NodeId>, from: NodeId, next: Term)
    returns (run': Run)
    requires id in V && id in nodes && Commands(entries) && next == term + 1 && from in V && from != id
    requires nodes[id] == Server(id, term, vote, entries, commit, Follower(leader)) && Ends(run, nodes)
    ensures Onto(run, run') && (Truly(run) ==> Truly(run'))
    ensures Ends(run', With(nodes, id, Server(id, term, vote, entries, commit, PreCandidate({id}))))
    ensures InNet(run', Message(id, from, term, PreVoteRequest(next, |entries|, P.LastTerm(entries))))
  {
    hide StepEvent, Ends, CoreOk, Commands, Msgs, Truly;
    Sounds(id, term, vote, entries, commit, leader, from);
    var (node, effects) := StepEvent(nodes[id], Tick(true));
    ServerOk(id, term, vote, entries, commit, PreCandidate({id}));
    run' := Ticks(run, nodes, id, node, effects);
  }

  lemma Encouraged(run: Run, nodes: map<NodeId, Node>, term: Term, vote: Option<NodeId>, entries: seq<Entry>,
                   commit: LogIndex, leader: Option<NodeId>, m: Message) returns (run': Run)
    requires m.to in V && m.to in nodes && m.from in V && m.from != m.to && Commands(entries) && InNet(run, m)
    requires nodes[m.to] == Server(m.to, term, vote, entries, commit, Follower(leader)) && Ends(run, nodes)
    requires m.body.PreVoteRequest? && m.body.nextTerm > term
    requires || m.body.preLastTerm > P.LastTerm(entries)
             || (m.body.preLastTerm == P.LastTerm(entries) && m.body.preLastIndex >= |entries|)
    ensures Onto(run, run') && (Truly(run) ==> Truly(run')) && Ends(run', nodes)
    ensures InNet(run', Message(m.to, m.from, m.term, PreVoteResponse(term, true)))
  {
    hide StepEvent, Ends, CoreOk, Commands, Truly;
    Encourages(m.to, term, vote, entries, commit, leader, m);
    var reply := Message(m.to, m.from, m.term, PreVoteResponse(term, true));
    ServerOk(m.to, term, vote, entries, commit, Follower(leader));
    run' := Delivers(run, nodes, m, nodes[m.to], Effects(false, [reply], []));
    assert With(nodes, m.to, nodes[m.to]) == nodes;
    assert reply in [reply];
  }

  lemma Asks(run: Run, nodes: map<NodeId, Node>, id: NodeId, term: Term, vote: Option<NodeId>, entries: seq<Entry>,
             commit: LogIndex, from: NodeId, next: Term) returns (run': Run)
    requires id in V && id in nodes && Commands(entries) && next == term + 1 && from in V && from != id
    requires nodes[id] == Server(id, term, vote, entries, commit, PreCandidate({id})) && Ends(run, nodes)
    requires InNet(run, Message(from, id, term, PreVoteResponse(term, true)))
    ensures Onto(run, run') && (Truly(run) ==> Truly(run'))
    ensures Ends(run', With(nodes, id, Server(id, next, Some(id), entries, commit, Candidate({id}))))
    ensures AskedAll(run', id, next, entries)
  {
    hide StepEvent, Ends, CoreOk, Commands, Msgs, Truly;
    var m := Message(from, id, term, PreVoteResponse(term, true));
    var (node, effects) := StepEvent(nodes[id], Receive(m, false));
    forall to | to in V && to != id
      ensures Message(id, to, term + 1, VoteRequest(|entries|, P.LastTerm(entries))) in Msgs(effects)
    {
      Campaigns(id, term, vote, entries, commit, from, to);
    }
    Campaigns(id, term, vote, entries, commit, from, from);
    ServerOk(id, term + 1, Some(id), entries, commit, Candidate({id}));
    run' := Delivers(run, nodes, m, node, effects);
  }

  lemma Grants(run: Run, nodes: map<NodeId, Node>, term: Term, vote: Option<NodeId>, entries: seq<Entry>,
               commit: LogIndex, leader: Option<NodeId>, m: Message) returns (run': Run)
    requires m.to in V && m.to in nodes && m.from in V && m.from != m.to && Commands(entries) && InNet(run, m)
    requires nodes[m.to] == Server(m.to, term, vote, entries, commit, Follower(leader)) && Ends(run, nodes)
    requires m.body.VoteRequest? && m.term > term
    requires || m.body.lastLogTerm > P.LastTerm(entries)
             || (m.body.lastLogTerm == P.LastTerm(entries) && m.body.lastLogIndex >= |entries|)
    ensures Onto(run, run') && (Truly(run) ==> Truly(run'))
    ensures Ends(run', With(nodes, m.to, Server(m.to, m.term, Some(m.from), entries, commit, Follower(leader))))
    ensures InNet(run', Message(m.to, m.from, m.term, VoteResponse(true)))
  {
    hide StepEvent, Ends, CoreOk, Commands, Truly;
    Votes(m.to, term, vote, entries, commit, leader, m);
    var (node, effects) := StepEvent(nodes[m.to], Receive(m, false));
    ServerOk(m.to, m.term, Some(m.from), entries, commit, Follower(leader));
    run' := Delivers(run, nodes, m, node, effects);
    assert Message(m.to, m.from, m.term, VoteResponse(true)) in effects.messages;
  }

  function Started(id: NodeId, term: Term, entries: seq<Entry>): LeaderState {
    LeaderRole.Start(Running(id, term, entries).core)
  }

  lemma TakesOver(run: Run, nodes: map<NodeId, Node>, id: NodeId, term: Term, entries: seq<Entry>, commit: LogIndex,
                  from: NodeId, to: NodeId) returns (run': Run)
    requires id in V && id in nodes && from in V && from != id && to in V && to != id && Commands(entries)
    requires InNet(run, Message(from, id, term, VoteResponse(true)))
    requires nodes[id] == Server(id, term, Some(id), entries, commit, Candidate({id})) && Ends(run, nodes)
    ensures Onto(run, run') && (Truly(run) ==> Truly(run'))
    ensures Ends(run', With(nodes, id, Leading(id, term, entries, commit, Started(id, term, entries))))
    ensures InNet(run', FirstRequest(id, term, entries, commit, to))
  {
    hide StepEvent, Ends, CoreOk, Commands, Msgs, LeaderRole.AppendFor, LeaderRole.Start, Truly;
    var m := Message(from, id, term, VoteResponse(true));
    Wins(id, term, entries, commit, from, to);
    var (node, effects) := StepEvent(nodes[id], Receive(m, false));
    ServerOk(id, term, Some(id), entries, commit, Candidate({id}));
    SameStart(id, term, entries, commit);
    run' := Delivers(run, nodes, m, node, effects);
  }

  /** What a new leader believes does not depend on what it has committed. */
  lemma SameStart(id: NodeId, term: Term, entries: seq<Entry>, commit: LogIndex)
    requires id in V && Commands(entries)
    ensures LeaderRole.Start(Server(id, term, Some(id), entries, commit, Candidate({id})).core)
         == Started(id, term, entries)
  {
    hide Commands, CoreOk, LeaderRole.Everyone, Configuration.AllNodes, Core.EffectiveConfig;
    ServerOk(id, term, Some(id), entries, commit, Candidate({id}));
    ServerOk(id, term, Some(id), entries, 0, Candidate({id}));
  }

  /** A follower sounds out another of its term, which encourages it and votes for it, and it
      leads. */
  lemma Elects(run: Run, nodes: map<NodeId, Node>, id: NodeId, term: Term, vote: Option<NodeId>, entries: seq<Entry>,
               commit: LogIndex, leader: Option<NodeId>, from: NodeId, vote0: Option<NodeId>, entries0: seq<Entry>,
               leader0: Option<NodeId>, to: NodeId, next: Term) returns (run': Run)
    requires id in V && from in V && to in V && id != from && id != to && Commands(entries) && Commands(entries0)
    requires next == term + 1
    requires || P.LastTerm(entries) > P.LastTerm(entries0)
             || (P.LastTerm(entries) == P.LastTerm(entries0) && |entries| >= |entries0|)
    requires id in nodes && nodes[id] == Server(id, term, vote, entries, commit, Follower(leader))
    requires from in nodes && nodes[from] == Idle(from, term, vote0, entries0, leader0)
    requires Ends(run, nodes)
    ensures SentSince(run, run') && (Truly(run) ==> Truly(run'))
    ensures Ends(run', With(With(nodes, id, Leading(id, next, entries, commit, Started(id, next, entries))),
                            from, Idle(from, next, Some(id), entries0, leader0)))
    ensures AskedAll(run', id, next, entries)
    ensures InNet(run', FirstRequest(id, next, entries, commit, to))
  {
    hide Ends, Server, LeaderRole.Start, LeaderRole.AppendFor, Commands, Truly;
    var sounding := With(nodes, id, Server(id, term, vote, entries, commit, PreCandidate({id})));
    var asked := With(nodes, id, Server(id, next, Some(id), entries, commit, Candidate({id})));
    var granted := With(asked, from, Idle(from, next, Some(id), entries0, leader0));
    var led := Leading(id, next, entries, commit, Started(id, next, entries));
    var sound := Message(id, from, term, PreVoteRequest(next, |entries|, P.LastTerm(entries)));
    var m := Message(id, from, next, VoteRequest(|entries|, P.LastTerm(entries)));
    run' := SoundsOut(run, nodes, id, term, vote, entries, commit, leader, from, next);
    run' := Encouraged(run', sounding, term, vote0, entries0, 0, leader0, sound);
    assert With(sounding, id, asked[id]) == asked;
    run' := Asks(run', sounding, id, term, vote, entries, commit, from, next);
    assert InNet(run', m);
    run' := Grants(run', asked, term, vote0, entries0, 0, leader0, m);
    run' := TakesOver(run', granted, id, next, entries, commit, from, to);
    assert With(granted, id, led) == With(With(nodes, id, led), from, Idle(from, next, Some(id), entries0, leader0));
  }

  /** The first request of a new leader. */
  function FirstRequest(id: NodeId, term: Term, entries: seq<Entry>, commit: LogIndex, to: NodeId): Message {
    LeaderRole.AppendFor(Server(id, term, Some(id), entries, commit, Candidate({id})).core, |entries| + 1, to)
  }

  /** What a new leader believes. */
  lemma StartKnown(id: NodeId, term: Term, entries: seq<Entry>)
    requires id in V && Commands(entries)
    ensures var start := Started(id, term, entries);
            && (forall j :: j in V ==> start.MatchOf(j) == (if j == id then |entries| else 0))
            && (forall j :: j in V ==> start.NextOf(j) == |entries| + 1)
            && Tracking(start)
            && start.nextReadId == 1 && start.pendingRead == None && start.confirmedRead == 0
  {
    ServerOk(id, term, Some(id), entries, 0, Candidate({id}));
    var ids := Simple(V, {}).AllNodes();
    forall j | j in V ensures j in ids {
    }
  }

  // ----- Replication -----

  /** The leader has sent every other server what it believes comes next there. */
  ghost predicate SentAll(run: Run, id: NodeId, term: Term, entries: seq<Entry>, commit: LogIndex, state: LeaderState) {
    forall to :: to in V && to != id ==>
      InNet(run, LeaderRole.AppendFor(Leading(id, term, entries, commit, state).core, state.NextOf(to), to))
  }

  /** What the leader believes once it has sent that. */
  function AfterSending(id: NodeId, term: Term, entries: seq<Entry>, commit: LogIndex, state: LeaderState)
    : LeaderState
  {
    LeaderRole.BroadcastAppend(Leading(id, term, entries, commit, state).core, state).0
  }

  lemma SentKnown(id: NodeId, term: Term, entries: seq<Entry>, commit: LogIndex, state: LeaderState)
    requires id in V && Commands(entries) && Tracking(state)
    ensures var state' := AfterSending(id, term, entries, commit, state);
            && state' == state.(nextIndex := state'.nextIndex) && Tracking(state')
            && forall to :: to in V && to != id ==> state'.NextOf(to) == Beyond(state.NextOf(to), |entries|)
  {
    hide LeaderRole.BroadcastAppend, Commands, Tracking, Beyond;
    ServerOk(id, term, Some(id), entries, commit, Leader(state));
    var core := Leading(id, term, entries, commit, state).core;
    forall to | to in V && to != id
      ensures AfterSending(id, term, entries, commit, state).NextOf(to) == Beyond(state.NextOf(to), |entries|)
    {
      Broadcasts(core, state, to);
    }
    Broadcasts(core, state, if id == 1 then 2 else 1);
  }

  /** A leader appends a command; it commits its log at once if it counts a quorum for it. */
  lemma Appends(run: Run, nodes: map<NodeId, Node>, id: NodeId, term: Term, entries: seq<Entry>, commit: LogIndex,
                state: LeaderState, command: Bytes, grown: seq<Entry>, state': LeaderState, commit': LogIndex)
    returns (run': Run)
    requires id in V && Short(entries) && term > 0 && |entries| < 10 && |command| == 1
    requires commit <= |entries| && Tracking(state)
    requires grown == entries + [Entry(term, |entries| + 1, Command(command))]
    requires state' == state.(matchIndex := state.matchIndex[id := |grown|])
    requires CountsAll(grown, term, commit, state') || CountsNone(grown, term, commit, state')
    requires commit' == CommitAfter(grown, term, commit, state')
    requires id in nodes && nodes[id] == Leading(id, term, entries, commit, state)
    requires Ends(run, nodes)
    ensures Onto(run, run') && (Truly(run) ==> Truly(run'))
    ensures var sent := AfterSending(id, term, grown, commit', state');
            Ends(run', With(nodes, id, Leading(id, term, grown, commit', sent)))
    ensures SentAll(run', id, term, grown, commit', state')
  {
    hide Ends, CoreOk, Msgs, Propose, LeaderRole.AppendFor, CountsAll, CountsNone, Short, Commands, Truly;
    hide LeaderRole.BroadcastAppend, Tracking;
    var r := Propose(nodes[id], command);
    var after := Leading(id, term, grown, commit', state');
    AppendsNode(id, term, Some(id), entries, commit, state, command, if id == 1 then 2 else 1);
    forall to | to in V && to != id
      ensures LeaderRole.AppendFor(after.core, state'.NextOf(to), to) in Msgs(r.effects)
    {
      AppendsNode(id, term, Some(id), entries, commit, state, command, to);
      SameRequest(after.core, commit, state'.NextOf(to), to);
    }
    ShortCommands(grown);
    ServerOk(id, term, Some(id), grown, commit', Leader(state'));
    UnappliedOk(after.core, commit);
    run' := ProposesAt(run, nodes, id, command, r);
  }

  lemma ShortCommands(entries: seq<Entry>)
    requires Short(entries)
    ensures Commands(entries)
  {
  }

  lemma UnappliedOk(core: Core, applied: LogIndex)
    requires CoreOk(V, core)
    ensures CoreOk(V, core.(lastApplied := applied))
  {
  }

  lemma StepsDownAt(run: Run, nodes: map<NodeId, Node>, term: Term, vote: Option<NodeId>, entries: seq<Entry>,
                    commit: LogIndex, state: LeaderState, m: Message) returns (run': Run)
    requires m.to in V && m.from in V && m.from != m.to && Commands(entries) && commit <= |entries|
    requires InNet(run, m) && m.body.AppendRequest? && m.term > term
    requires m.to in nodes && nodes[m.to] == Server(m.to, term, vote, entries, commit, Leader(state))
        && Ends(run, nodes)
    ensures Onto(run, run') && (Truly(run) ==> Truly(run'))
    ensures Ends(run', With(nodes, m.to, Server(m.to, m.term, None, entries, commit, Follower(Some(m.from)))))
  {
    hide Ends, CoreOk, Msgs, Commands, StepEvent, Truly;
    StepsDown(nodes[m.to].core, state, m);
    ServerOk(m.to, m.term, None, entries, commit, Follower(Some(m.from)));
    var (node, effects) := StepEvent(nodes[m.to], Receive(m, false));
    run' := Delivers(run, nodes, m, node, effects);
  }

  /** A follower, perhaps of an older term, accepts and acknowledges. */
  lemma AcceptsAt(run: Run, nodes: map<NodeId, Node>, term: Term, vote: Option<NodeId>, entries: seq<Entry>,
                  commit: LogIndex, leader: Option<NodeId>, m: Message, grown: seq<Entry>, vote': Option<NodeId>)
    returns (run': Run)
    requires m.to in V && m.from in V && m.from != m.to && Commands(entries) && Commands(grown) && InNet(run, m)
    requires m.body.AppendRequest? && m.term >= term && m.body.leaderCommit <= commit
    requires m.body.prevLogIndex <= |entries| && Merging.Follows(m.body.entries, m.body.prevLogIndex)
    requires m.body.prevLogIndex == 0 || P.TermAt(entries, m.body.prevLogIndex) == m.body.prevLogTerm
    requires grown == P.MergeAt(entries, m.body.prevLogIndex, m.body.entries)
    requires vote' == if m.term == term then vote else None
    requires m.to in nodes && nodes[m.to] == Server(m.to, term, vote, entries, commit, Follower(leader))
    requires (commit <= |entries| && entries[..commit] <= grown) || |grown| < commit
    requires Ends(run, nodes)
    ensures Onto(run, run')
    ensures Right(m, grown) && Truly(run) ==> Truly(run')
    ensures Ends(run', With(nodes, m.to, Server(m.to, m.term, vote', grown, commit, Follower(Some(m.from)))))
    ensures InNet(run', Message(m.to, m.from, m.term, AppendResponse(true, |grown|)))
  {
    hide Ends, CoreOk, Commands, StepEvent, P.MergeAt, Truly;
    var core := nodes[m.to].core;
    ServerOk(m.to, term, vote, entries, commit, Follower(leader));
    ServerOk(m.to, m.term, vote', grown, commit, Follower(Some(m.from)));
    if m.term == term {
      Accepts(core, leader, m, grown);
    } else {
      AcceptsNewer(core, leader, m, grown);
    }
    var (node, effects) := StepEvent(nodes[m.to], Receive(m, false));
    if Right(m, grown) {
      run' := Delivers(run, nodes, m, node, effects);
    } else {
      run' := DeliversWrong(run, nodes, m, node, effects);
    }
    assert Message(m.to, m.from, m.term, AppendResponse(true, |grown|)) in effects.messages;
  }

  /** The delivery of any message, with no claim about what it acknowledges. */
  lemma DeliversWrong(run: Run, nodes: map<NodeId, Node>, m: Message, node: Node, effects: Effects) returns (run': Run)
    requires m.to in V && m.to in nodes && m.from in V && m.from != m.to && InNet(run, m)
    requires StepEvent(nodes[m.to], Receive(m, false)) == (node, effects)
    requires Ends(run, nodes) && Sane(nodes[m.to], node, effects)
    ensures Ends(run', With(nodes, m.to, Applying(node))) && Onto(run, run')
    ensures SentMore(run, run', Msgs(effects))
  {
    hide StepEvent, IsRun, Do, Ends, Msgs, Sane, CoreOk, Fed;
    EndsAt(run, nodes, m.to);
    run' := Extend(run, m.to, DeliverStep(m, false));
    StaysGood(Last(run), m.to, DeliverStep(m, false), nodes[m.to], node, effects);
    EndsAgain(run, nodes, run', m.to, Applying(node));
  }

  lemma RejectsAt(run: Run, nodes: map<NodeId, Node>, term: Term, vote: Option<NodeId>, leader: Option<NodeId>,
                  m: Message)
    returns (run': Run)
    requires m.to in V && m.from in V && m.from != m.to && InNet(run, m)
    requires m.body.AppendRequest? && m.term == term && m.body.prevLogIndex > 0 && m.body.prevLogTerm > 0
    requires m.to in nodes && nodes[m.to] == Server(m.to, term, vote, [], 0, Follower(leader)) && Ends(run, nodes)
    ensures Onto(run, run') && (Truly(run) ==> Truly(run'))
    ensures Ends(run', With(nodes, m.to, Server(m.to, term, vote, [], 0, Follower(Some(m.from)))))
    ensures InNet(run', Message(m.to, m.from, term, AppendResponse(false, 0)))
  {
    hide Ends, CoreOk, StepEvent, Truly;
    ServerOk(m.to, term, vote, [], 0, Follower(Some(m.from)));
    Rejects(nodes[m.to].core, leader, m);
    var (node, effects) := StepEvent(nodes[m.to], Receive(m, false));
    run' := Delivers(run, nodes, m, node, effects);
    assert Message(m.to, m.from, term, AppendResponse(false, 0)) in effects.messages;
  }

  /** The leader counts what a server claims to hold, and commits its log if that is enough. */
  lemma CountsAt(run: Run, nodes: map<NodeId, Node>, id: NodeId, term: Term, entries: seq<Entry>, commit: LogIndex,
                 state: LeaderState, from: NodeId, last: LogIndex, state': LeaderState, commit': LogIndex)
    returns (run': Run)
    requires id in V && from in V && from != id && InNet(run, Message(from, id, term, AppendResponse(true, last)))
    requires Commands(entries) && commit <= |entries|
    requires state' == state.(matchIndex := state.matchIndex[from := last])
    requires CountsAll(entries, term, commit, state') || CountsNone(entries, term, commit, state')
    requires commit' == CommitAfter(entries, term, commit, state')
    requires id in nodes && nodes[id] == Leading(id, term, entries, commit, state) && Ends(run, nodes)
    ensures Onto(run, run') && (Truly(run) ==> Truly(run'))
    ensures Ends(run', With(nodes, id, Leading(id, term, entries, commit', state')))
  {
    hide Ends, CoreOk, StepEvent, Msgs, Commands, LeaderRole.AdvanceCommit, CountsAll, CountsNone, Truly;
    var m := Message(from, id, term, AppendResponse(true, last));
    var core := nodes[id].core;
    ServerOk(id, term, Some(id), entries, commit, Leader(state));
    Counts(core, state, from, last);
    Commits(core, state');
    var after := Leading(id, term, entries, commit', state');
    ServerOk(id, term, Some(id), entries, commit', Leader(state'));
    UnappliedOk(after.core, commit);
    run' := Delivers(run, nodes, m, Node(after.core.(lastApplied := commit), Leader(state')), NO_EFFECTS);
  }

  lemma RetriesAt(run: Run, nodes: map<NodeId, Node>, id: NodeId, term: Term, entries: seq<Entry>,
                  state: LeaderState, from: NodeId, state': LeaderState) returns (run': Run)
    requires id in V && from in V && from != id && InNet(run, Message(from, id, term, AppendResponse(false, 0)))
    requires Commands(entries) && Tracking(state) && state.MatchOf(from) == 0
    requires state' == state.(nextIndex := state.nextIndex[from := Beyond(1, |entries|)])
    requires id in nodes && nodes[id] == Leading(id, term, entries, 0, state) && Ends(run, nodes)
    ensures Onto(run, run') && (Truly(run) ==> Truly(run'))
    ensures Ends(run', With(nodes, id, Leading(id, term, entries, 0, state')))
    ensures InNet(run', LeaderRole.AppendFor(nodes[id].core, 1, from))
  {
    hide Ends, CoreOk, StepEvent, Commands, LeaderRole.AppendFor, Truly;
    var m := Message(from, id, term, AppendResponse(false, 0));
    var core := nodes[id].core;
    ServerOk(id, term, Some(id), entries, 0, Leader(state));
    Retries(core, state, from, 0);
    var effects := NO_EFFECTS.WithMessage(LeaderRole.AppendFor(core, 1, from));
    run' := Delivers(run, nodes, m, Node(core, Leader(state')), effects);
    assert LeaderRole.AppendFor(core, 1, from) in effects.messages;
  }

  // ----- Reads -----

  lemma ReadsAt(run: Run, nodes: map<NodeId, Node>, id: NodeId, term: Term, entries: seq<Entry>,
                commit: LogIndex, state: LeaderState, to: NodeId) returns (run': Run)
    requires id in V && to in V && to != id && Commands(entries) && state.pendingRead.None?
    requires 0 < commit <= |entries| && P.TermAt(entries, commit) == term
    requires id in nodes && nodes[id] == Leading(id, term, entries, commit, state) && Ends(run, nodes)
    ensures Onto(run, run') && (Truly(run) ==> Truly(run')) && run'.moves == run.moves + [Move(id, ReadStep)]
    ensures Ends(run', With(nodes, id, Leading(id, term, entries, commit, Waiting(id, commit, state))))
    ensures InNet(run', Message(id, to, term, ReadIndexRequest(state.nextReadId, commit)))
  {
    hide Ends, CoreOk, Commands, RequestReadIndex, Truly, Msgs;
    EndsAt(run, nodes, id);
    Reads(id, term, Some(id), entries, commit, state, to);
    ServerOk(id, term, Some(id), entries, commit, Leader(Waiting(id, commit, state)));
    var r := RequestReadIndex(nodes[id]);
    run' := Moves(run, nodes, id, ReadStep, Node(nodes[id].core, Leader(r.state)), r.effects);
  }

  lemma AnswersAt(run: Run, nodes: map<NodeId, Node>, term: Term, vote: Option<NodeId>, entries: seq<Entry>,
                  commit: LogIndex, leader: Option<NodeId>, m: Message, leader': Option<NodeId>) returns (run': Run)
    requires m.to in V && m.from in V && m.from != m.to && Commands(entries) && commit <= |entries|
    requires InNet(run, m) && m.body.ReadIndexRequest? && m.term <= term
    requires leader' == if m.term == term then Some(m.from) else leader
    requires m.to in nodes && nodes[m.to] == Server(m.to, term, vote, entries, commit, Follower(leader))
        && Ends(run, nodes)
    ensures Onto(run, run') && (Truly(run) ==> Truly(run'))
    ensures Ends(run', With(nodes, m.to, Server(m.to, term, vote, entries, commit, Follower(leader'))))
    ensures InNet(run', Message(m.to, m.from, term, ReadIndexResponse(m.body.readId, m.body.readIndex)))
  {
    hide Ends, CoreOk, Commands, StepEvent, Truly;
    var core := nodes[m.to].core;
    ServerOk(m.to, term, vote, entries, commit, Follower(leader'));
    Answers(core, leader, m);
    var reply := Message(m.to, m.from, term, ReadIndexResponse(m.body.readId, m.body.readIndex));
    var effects := NO_EFFECTS.WithMessage(reply);
    run' := Delivers(run, nodes, m, Node(core, Follower(leader')), effects);
    assert reply in effects.messages;
  }

  lemma ConfirmsAt(run: Run, nodes: map<NodeId, Node>, id: NodeId, term: Term, entries: seq<Entry>,
                   commit: LogIndex, state: LeaderState, from: NodeId, state': LeaderState) returns (run': Run)
    requires id in V && from in V && from != id && Commands(entries) && commit <= |entries|
    requires state.pendingRead.None?
    requires InNet(run, Message(from, id, term, ReadIndexResponse(state.nextReadId, commit)))
    requires state' == state.(nextReadId := state.nextReadId + 1, confirmedRead := Max(state.confirmedRead, commit))
    requires id in nodes && nodes[id] == Leading(id, term, entries, commit, Waiting(id, commit, state))
    requires Ends(run, nodes)
    ensures Onto(run, run') && (Truly(run) ==> Truly(run'))
    ensures Ends(run', With(nodes, id, Leading(id, term, entries, commit, state')))
  {
    hide Ends, CoreOk, Commands, StepEvent, Truly, Msgs;
    var m := Message(from, id, term, ReadIndexResponse(state.nextReadId, commit));
    var core := nodes[id].core;
    ServerOk(id, term, Some(id), entries, commit, Leader(state'));
    Confirms(core, Waiting(id, commit, state), from);
    run' := Delivers(run, nodes, m, Node(core, Leader(state')), NO_EFFECTS);
  }

  // ----- Counting -----

  lemma TwoHold(entries: seq<Entry>, term: Term, commit: LogIndex, state: LeaderState, a: NodeId, b: NodeId)
    requires a in V && b in V && a != b && state.MatchOf(a) >= |entries| && state.MatchOf(b) >= |entries|
    requires |entries| > commit && P.LastTerm(entries) == term
    ensures CountsAll(entries, term, commit, state)
  {
    Quorum(Holders(state, |entries|));
  }

  lemma OneHolds(entries: seq<Entry>, term: Term, commit: LogIndex, state: LeaderState, a: NodeId)
    requires a in V && forall j :: j in V && j != a ==> state.MatchOf(j) <= commit
    ensures CountsNone(entries, term, commit, state)
    ensures CommitAfter(entries, term, commit, state) == commit
  {
    forall j: nat {:trigger Holders(state, j)} | commit < j <= |entries|
      ensures !Simple(V, {}).HasQuorum(Holders(state, j))
    {
      Quorum(Holders(state, j));
    }
    Quorum(Holders(state, |entries|));
  }

  // ----- Three servers -----

  function Three(a: Node, b: Node, c: Node): map<NodeId, Node> {
    map[1 := a, 2 := b, 3 := c]
  }

  lemma ThreeUpdate(a: Node, b: Node, c: Node, x: Node)
    ensures With(Three(a, b, c), 1, x) == Three(x, b, c)
    ensures With(Three(a, b, c), 2, x) == Three(a, x, c)
    ensures With(Three(a, b, c), 3, x) == Three(a, b, x)
    ensures Three(a, b, c).Keys == V && Three(a, b, c)[1] == a && Three(a, b, c)[2] == b && Three(a, b, c)[3] == c
  {
  }

  function Idle(id: NodeId, term: Term, vote: Option<NodeId>, entries: seq<Entry>, leader: Option<NodeId>): Node {
    Server(id, term, vote, entries, 0, Follower(leader))
  }

  function Running(id: NodeId, term: Term, entries: seq<Entry>): Node {
    Server(id, term, Some(id), entries, 0, Candidate({id}))
  }

  function Leading(id: NodeId, term: Term, entries: seq<Entry>, commit: LogIndex, state: LeaderState): Node {
    Server(id, term, Some(id), entries, commit, Leader(state))
  }

  lemma Birth() returns (run: Run)
    ensures Truly(run)
    ensures Ends(run, Three(Idle(1, 0, None, [], None), Idle(2, 0, None, [], None), Idle(3, 0, None, [], None)))
  {
    var p := Persistent(0, None, EMPTY_LOG, Simple(V, {}));
    var c := ClusterState(V, map i | i in V :: Machine(NewNode(i, O, V), p, []), {});
    run := Run([c], []);
    forall i | i in V ensures Good(c.machines[i], Idle(i, 0, None, [], None)) {
      ServerOk(i, 0, None, [], 0, Follower(None));
    }
  }

  /** The rest of a leader's log, in one request. */
  lemma Requests(id: NodeId, term: Term, entries: seq<Entry>, commit: LogIndex, role: Role, next: LogIndex, to: NodeId)
    requires id in V && Commands(entries) && 1 <= next <= |entries| + 1 <= next + 2
    ensures LeaderRole.AppendFor(Server(id, term, Some(id), entries, commit, role).core, next, to)
         == Message(id, to, term, AppendRequest(next - 1, P.TermAt(entries, next - 1), entries[next - 1..], commit))
  {
    ServerOk(id, term, Some(id), entries, commit, role);
    var log := LogWith(entries);
    assert next <= |entries| ==> log.Slice(next, |entries|) == entries[next - 1..];
  }

  lemma FedIs(mc: Machine, id: NodeId, term: Term, entries: seq<Entry>, commit: LogIndex, state: LeaderState)
    requires Good(mc, Leading(id, term, entries, commit, state)) && commit <= |entries|
    ensures mc.applied == entries[..commit]
  {
  }

  /** The servers of the last state. */
  lemma MachinesAre(run: Run, a: Node, b: Node, c: Node)
    requires Ends(run, Three(a, b, c))
    ensures IsRun(run) && run.states != [] && Last(run).machines.Keys == V
    ensures 1 in Last(run).machines && Last(run).machines[1].node == a
    ensures 2 in Last(run).machines && Last(run).machines[2].node == b
    ensures 3 in Last(run).machines && Last(run).machines[3].node == c
  {
    hide Ends, IsRun, Three, AppliedOk, CoreOk;
    ThreeUpdate(a, b, c, a);
    EndsAt(run, Three(a, b, c), 1);
    EndsAt(run, Three(a, b, c), 2);
    EndsAt(run, Three(a, b, c), 3);
  }

  lemma Honestly(run: Run)
    requires Truly(run)
    ensures IsRun(run) && Theorems.HonestRun(run)
  {
    hide IsRun, Theorems.LocallyHonest, Theorems.HonestRun;
    Theorems.LocallyHonestIsHonest(run);
  }

  lemma NextState(run: Run, run': Run)
    requires IsRun(run) && IsRun(run') && Onto(run, run')
    ensures run'.states[|run.moves|] == Last(run) && run'.states[|run.moves| + 1] == Last(run')
    ensures |run'.moves| == |run.moves| + 1 && |run'.states| == |run.states| + 1 == |run.moves| + 2
  {
    hide Possible, Do, Initial;
  }

  lemma Known(id: NodeId, term: Term, entries: seq<Entry>, commit: LogIndex, state: LeaderState)
    ensures var node := Leading(id, term, entries, commit, state);
            node.role == Leader(state) && node.core.p.term == term && node.core.commitIndex == commit
  {
  }
}
