/** The assertion behind every proposal, that the commit index lies within the log: it holds
    in honest runs, and there is another run in which it fails. */
module PastEnd {
  import opened Types
  import opened Event
  import opened RaftCore
  import LeaderRole
  import opened RaftNode
  import opened Merging
  import opened Cluster
  import opened ThreeServers
  import opened Script
  import opened EchoRead
  import NodeDurability
  import Theorems
  import P = Protocol

  /** In honest runs no server ever has committed past the end of its log. */
  lemma NeverPanics(run: Run, k: nat, i: NodeId, command: Bytes)
    requires IsRun(run) && Theorems.HonestRun(run) && k < |run.states| && i in run.states[k].machines
    ensures !Propose(run.states[k].machines[i].node, command).Panicked?
  {
    hide IsRun, Theorems.HonestRun, LeaderRole.Propose, Core.ProposalLimitExceeded;
    Theorems.StateMachineSafety(run, k, k, i, i);
    NodeDurability.PlainNode(run, k, i);
    PlainQueries(run.states[k].machines[i].node.core.p.log);
  }

  /** Server 3 leads term 3 and overwrites what server 1 has committed and applied. */
  lemma CutBelow() returns (run: Run, state: LeaderState)
    ensures Ends(run, Three(Server(1, 3, None, [A, B], 3, Follower(Some(3))), Idle(2, 3, Some(3), U, Some(1)),
                            Leading(3, 3, [A, B], 0, state)))
  {
    hide Ends, Server, LeaderRole.Start, LeaderRole.AppendFor, CommitAfter, Commands, Short, Three, Truly, P.MergeAt;
    hide AfterSending, Started;
    LogsShort();
    LogEnds();
    LogParts();
    var first;
    run, first := ThreeCommitted();
    var a, b, c := Leading(1, 2, [A, X, Y], 3, first), Idle(2, 2, None, U, Some(1)), Idle(3, 2, Some(1), [A], Some(1));
    var start := Started(3, 3, [A]);
    var led, b' := Leading(3, 3, [A], 0, start), Idle(2, 3, Some(3), U, Some(1));
    ThreeUpdate(a, b, c, led);
    ThreeUpdate(a, b, led, b');
    run := Elects(run, Three(a, b, c), 3, 2, Some(1), [A], 0, Some(1), 2, None, U, Some(1), 1, 3);
    StartKnown(3, 3, [A]);
    var counted := start.(matchIndex := start.matchIndex[3 := 2]);
    state := AfterSending(3, 3, [A, B], 0, counted);
    OneHolds([A, B], 3, 0, counted, 3);
    var c' := Leading(3, 3, [A, B], 0, state);
    ThreeUpdate(a, b', led, c');
    run := Appends(run, Three(a, b', led), 3, 3, [A], 0, start, [3], [A, B], counted, 0);
    Requests(3, 3, [A, B], 0, Leader(counted), 2, 1);
    run := Overwrites(run, first, b', c');
  }

  /** Server 1 steps down for it, then accepts the request. */
  lemma Overwrites(run: Run, first: LeaderState, b: Node, c: Node) returns (run': Run)
    requires Ends(run, Three(Leading(1, 2, [A, X, Y], 3, first), b, c))
    requires InNet(run, Message(3, 1, 3, AppendRequest(1, 2, [B], 0)))
    ensures Ends(run', Three(Server(1, 3, None, [A, B], 3, Follower(Some(3))), b, c))
  {
    hide Ends, Server, Commands, Short, Three, Truly, P.MergeAt;
    LogsShort();
    LogEnds();
    LogParts();
    var m := Message(3, 1, 3, AppendRequest(1, 2, [B], 0));
    var a, down := Leading(1, 2, [A, X, Y], 3, first), Server(1, 3, None, [A, X, Y], 3, Follower(Some(3)));
    ThreeUpdate(a, b, c, down);
    run' := StepsDownAt(run, Three(a, b, c), 2, Some(1), [A, X, Y], 3, first, m);
    ThreeUpdate(down, b, c, Server(1, 3, None, [A, B], 3, Follower(Some(3))));
    run' := AcceptsAt(run', Three(down, b, c), 3, None, [A, X, Y], 3, Some(3), m, [A, B], None);
  }

  /** Server 1 is elected with a log shorter than its commit index; its first proposal fails
      the assertion. */
  lemma ProposalPanics(command: Bytes) returns (run: Run)
    ensures IsRun(run) && run.states != [] && IsLeader(Last(run), 1, 4) && !Theorems.HonestRun(run)
    ensures Propose(Last(run).machines[1].node, command).Panicked?
  {
    hide Ends, Server, LeaderRole.Start, Commands, Short, Three, Truly, Started, IsRun, Theorems.HonestRun;
    LogsShort();
    LogEnds();
    var third;
    run, third := CutBelow();
    var a, b, c := Server(1, 3, None, [A, B], 3, Follower(Some(3))), Idle(2, 3, Some(3), U, Some(1)),
        Leading(3, 3, [A, B], 0, third);
    var start := Started(1, 4, [A, B]);
    var a', b' := Leading(1, 4, [A, B], 3, start), Idle(2, 4, Some(1), U, Some(1));
    ThreeUpdate(a, b, c, a');
    ThreeUpdate(a', b, c, b');
    run := Elects(run, Three(a, b, c), 1, 3, None, [A, B], 3, Some(3), 2, Some(3), U, Some(1), 3, 4);
    MachinesAre(run, a', b', c);
    Known(1, 4, [A, B], 3, start);
    ServerOk(1, 4, Some(1), [A, B], 3, Leader(start));
    if Theorems.HonestRun(run) {
      NeverPanics(run, |run.states| - 1, 1, command);
    }
  }
}
