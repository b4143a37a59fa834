/** A run in which two servers apply different commands at the same index. The second leader
    counts the last index of a server that still holds an entry of the first. */
module Divergence {
  import opened Types
  import opened RaftLog
  import opened Event
  import opened RaftCore
  import LeaderRole
  import Merging
  import opened Cluster
  import opened ThreeServers
  import opened Script
  import Theorems
  import P = Protocol

  const X := Entry(1, 1, Command([1]))
  const Y := Entry(2, 1, Command([2]))
  const Z := Entry(3, 2, Command([3]))

  lemma SmallLogs()
    ensures Short([]) && Short([X]) && Short([Y]) && Short([X, Z])
    ensures Commands([]) && Commands([X]) && Commands([Y]) && Commands([X, Z])
    ensures P.LastTerm([]) == 0 && P.LastTerm([X]) == 1 && P.LastTerm([Y]) == 2 && P.LastTerm([X, Z]) == 3
    ensures [X, Z][1..] == [Z] && [X, Z][0..] == [X, Z] && P.TermAt([X, Z], 1) == 1
    ensures Merging.Follows([], 0) && P.MergeAt([X], 0, []) == [X]
    ensures Merging.Follows([X, Z], 0) && P.MergeAt([], 0, [X, Z]) == [X, Z]
  {
  }

  /** Server 1 leads term 1 and holds a command that nobody else has. */
  lemma FirstLeader() returns (run: Run, state: LeaderState)
    ensures Ends(run, Three(Leading(1, 1, [X], 0, state), Idle(2, 1, Some(1), [], None), Idle(3, 1, Some(1), [], None)))
  {
    hide Ends, Server, LeaderRole.Start, LeaderRole.AppendFor, CommitAfter, Commands, Short, Three, Truly;
    SmallLogs();
    var a, b, c := Idle(1, 0, None, [], None), Idle(2, 0, None, [], None), Idle(3, 0, None, [], None);
    run := Birth();
    var start := Started(1, 1, []);
    var b' := Idle(2, 1, Some(1), [], None);
    ThreeUpdate(a, b, c, Leading(1, 1, [], 0, start));
    ThreeUpdate(Leading(1, 1, [], 0, start), b, c, b');
    run := Elects(run, Three(a, b, c), 1, 0, None, [], 0, None, 2, None, [], None, 2, 1);
    StartKnown(1, 1, []);
    var counted := start.(matchIndex := start.matchIndex[1 := 1]);
    state := AfterSending(1, 1, [X], 0, counted);
    OneHolds([X], 1, 0, counted, 1);
    ThreeUpdate(Leading(1, 1, [], 0, start), b', c, Leading(1, 1, [X], 0, state));
    run := Appends(run, Three(Leading(1, 1, [], 0, start), b', c), 1, 1, [], 0, start, [1], [X], counted, 0);
    ThreeUpdate(Leading(1, 1, [X], 0, state), b', c, Idle(3, 1, Some(1), [], None));
    run := Grants(run, Three(Leading(1, 1, [X], 0, state), b', c), 0, None, [], 0, None,
                  Message(1, 3, 1, VoteRequest(0, 0)));
  }

  /** Server 3 leads term 2 with an empty log. */
  lemma SecondElection() returns (run: Run, first: LeaderState)
    ensures Ends(run, Three(Leading(1, 1, [X], 0, first), Idle(2, 2, Some(3), [], None),
                            Leading(3, 2, [], 0, Started(3, 2, []))))
    ensures InNet(run, Message(3, 1, 2, AppendRequest(0, 0, [], 0)))
  {
    hide Ends, Server, LeaderRole.Start, LeaderRole.AppendFor, Commands, Short, Three, Truly;
    SmallLogs();
    run, first := FirstLeader();
    var a, b, c := Leading(1, 1, [X], 0, first), Idle(2, 1, Some(1), [], None), Idle(3, 1, Some(1), [], None);
    var c' := Leading(3, 2, [], 0, Started(3, 2, []));
    ThreeUpdate(a, b, c, c');
    ThreeUpdate(a, b, c', Idle(2, 2, Some(3), [], None));
    run := Elects(run, Three(a, b, c), 3, 1, Some(1), [], 0, None, 2, Some(1), [], None, 1, 2);
    Requests(3, 2, [], 0, Candidate({3}), 1, 1);
  }

  /** Server 1 steps down, answers the heartbeat and claims the entry it still holds. */
  lemma Claim() returns (run: Run, noted: LeaderState)
    ensures Ends(run, Three(Idle(1, 2, None, [X], Some(3)), Idle(2, 2, Some(3), [], None), Leading(3, 2, [], 0, noted)))
    ensures noted.MatchOf(1) == 1 && Tracking(noted)
  {
    hide Ends, Server, LeaderRole.Start, LeaderRole.AppendFor, CommitAfter, Commands, Short, Three, Truly, Started;
    SmallLogs();
    var first;
    run, first := SecondElection();
    StartKnown(3, 2, []);
    var start := Started(3, 2, []);
    var beat := Message(3, 1, 2, AppendRequest(0, 0, [], 0));
    var a, b, c := Leading(1, 1, [X], 0, first), Idle(2, 2, Some(3), [], None), Leading(3, 2, [], 0, start);
    var a' := Idle(1, 2, None, [X], Some(3));
    ThreeUpdate(a, b, c, a');
    run := StepsDownAt(run, Three(a, b, c), 1, Some(1), [X], 0, first, beat);
    ThreeUpdate(a', b, c, a');
    run := AcceptsAt(run, Three(a', b, c), 2, None, [X], 0, Some(3), beat, [X], None);
    noted := start.(matchIndex := start.matchIndex[1 := 1]);
    NothingCounts(2, noted);
    ThreeUpdate(a', b, c, Leading(3, 2, [], 0, noted));
    run := CountsAt(run, Three(a', b, c), 3, 2, [], 0, start, 1, 1, noted, 0);
  }

  lemma NothingCounts(term: Term, state: LeaderState)
    ensures CountsNone([], term, 0, state) && CommitAfter([], term, 0, state) == 0
  {
  }

  /** The next command is committed on that claim alone. */
  lemma SecondLeader() returns (run: Run, state: LeaderState)
    ensures Ends(run, Three(Idle(1, 2, None, [X], Some(3)), Idle(2, 2, Some(3), [], None),
                            Leading(3, 2, [Y], 1, state)))
  {
    hide Ends, Server, LeaderRole.AppendFor, Commands, Short, Three, Truly;
    SmallLogs();
    var noted;
    run, noted := Claim();
    var a, b := Idle(1, 2, None, [X], Some(3)), Idle(2, 2, Some(3), [], None);
    var counted := noted.(matchIndex := noted.matchIndex[3 := 1]);
    state := AfterSending(3, 2, [Y], 1, counted);
    TwoHold([Y], 2, 0, counted, 1, 3);
    ThreeUpdate(a, b, Leading(3, 2, [], 0, noted), Leading(3, 2, [Y], 1, state));
    run := Appends(run, Three(a, b, Leading(3, 2, [], 0, noted)), 3, 2, [], 0, noted, [2], [Y], counted, 1);
  }

  /** Server 1 leads again, in term 3. */
  lemma ThirdElection() returns (run: Run, second: LeaderState)
    ensures Ends(run, Three(Leading(1, 3, [X], 0, Started(1, 3, [X])), Idle(2, 3, Some(1), [], None),
                            Leading(3, 2, [Y], 1, second)))
  {
    hide Ends, Server, LeaderRole.Start, LeaderRole.AppendFor, Commands, Short, Three, Truly;
    SmallLogs();
    run, second := SecondLeader();
    var a, b, c := Idle(1, 2, None, [X], Some(3)), Idle(2, 2, Some(3), [], None), Leading(3, 2, [Y], 1, second);
    var a' := Leading(1, 3, [X], 0, Started(1, 3, [X]));
    ThreeUpdate(a, b, c, a');
    ThreeUpdate(a', b, c, Idle(2, 3, Some(1), [], None));
    run := Elects(run, Three(a, b, c), 1, 2, None, [X], 0, Some(3), 2, Some(3), [], None, 2, 3);
  }

  /** It appends a command and brings server 2 up to date. */
  lemma Repair() returns (run: Run, second: LeaderState, back: LeaderState)
    ensures Ends(run, Three(Leading(1, 3, [X, Z], 0, back), Idle(2, 3, Some(1), [], Some(1)),
                            Leading(3, 2, [Y], 1, second)))
    ensures InNet(run, Message(1, 2, 3, AppendRequest(0, 0, [X, Z], 0))) && back.MatchOf(1) == 2
  {
    hide Ends, Server, LeaderRole.Start, LeaderRole.AppendFor, CommitAfter, Commands, Short, Three, Truly, Started;
    SmallLogs();
    run, second := ThirdElection();
    StartKnown(1, 3, [X]);
    var start := Started(1, 3, [X]);
    var a, b, c := Leading(1, 3, [X], 0, start), Idle(2, 3, Some(1), [], None), Leading(3, 2, [Y], 1, second);
    var counted := start.(matchIndex := start.matchIndex[1 := 2]);
    var grown := AfterSending(1, 3, [X, Z], 0, counted);
    SentKnown(1, 3, [X, Z], 0, counted);
    OneHolds([X, Z], 3, 0, counted, 1);
    var a' := Leading(1, 3, [X, Z], 0, grown);
    ThreeUpdate(a, b, c, a');
    run := Appends(run, Three(a, b, c), 1, 3, [X], 0, start, [3], [X, Z], counted, 0);
    Requests(1, 3, [X, Z], 0, Leader(counted), 2, 2);
    var b' := Idle(2, 3, Some(1), [], Some(1));
    ThreeUpdate(a', b, c, b');
    run := RejectsAt(run, Three(a', b, c), 3, Some(1), None, Message(1, 2, 3, AppendRequest(1, 1, [Z], 0)));
    back := grown.(nextIndex := grown.nextIndex[2 := Beyond(1, 2)]);
    ThreeUpdate(a', b', c, Leading(1, 3, [X, Z], 0, back));
    run := RetriesAt(run, Three(a', b', c), 1, 3, [X, Z], grown, 2, back);
    Requests(1, 3, [X, Z], 0, Leader(grown), 1, 2);
  }

  /** It commits its old entry under the new one. */
  lemma ThirdLeader() returns (run: Run, second: LeaderState, state: LeaderState)
    ensures Ends(run, Three(Leading(1, 3, [X, Z], 2, state), Idle(2, 3, Some(1), [X, Z], Some(1)),
                            Leading(3, 2, [Y], 1, second)))
  {
    hide Ends, Server, Commands, Short, Three, Truly;
    SmallLogs();
    var back;
    run, second, back := Repair();
    var a, b, c := Leading(1, 3, [X, Z], 0, back), Idle(2, 3, Some(1), [], Some(1)), Leading(3, 2, [Y], 1, second);
    var b' := Idle(2, 3, Some(1), [X, Z], Some(1));
    var m := Message(1, 2, 3, AppendRequest(0, 0, [X, Z], 0));
    ThreeUpdate(a, b, c, b');
    run := AcceptsAt(run, Three(a, b, c), 3, Some(1), [], 0, Some(1), m, [X, Z], Some(1));
    state := back.(matchIndex := back.matchIndex[2 := 2]);
    TwoHold([X, Z], 3, 0, state, 1, 2);
    ThreeUpdate(a, b', c, Leading(1, 3, [X, Z], 2, state));
    run := CountsAt(run, Three(a, b', c), 1, 3, [X, Z], 0, back, 2, 2, state, 2);
  }

  /** State Machine Safety fails without the hypothesis of honest acknowledgements: in this
      run server 3 has applied `Y` and server 1 `X` as the first command. */
  lemma StateMachineSafetyFails() returns (run: Run)
    ensures IsRun(run)
    ensures run.states != [] && 1 in Last(run).machines && 3 in Last(run).machines
    ensures Last(run).machines[1].applied == [X, Z] && Last(run).machines[3].applied == [Y] && X != Y
    ensures !Theorems.HonestRun(run)
  {
    hide IsRun, Server, Ends, Good, Three, Leading, Idle, Theorems.HonestRun;
    var second, state;
    run, second, state := ThirdLeader();
    var a, b, c := Leading(1, 3, [X, Z], 2, state), Idle(2, 3, Some(1), [X, Z], Some(1)), Leading(3, 2, [Y], 1, second);
    ThreeUpdate(a, b, c, c);
    InVoters();
    EndsAt(run, Three(a, b, c), 1);
    EndsAt(run, Three(a, b, c), 3);
    FedIs(Last(run).machines[1], 1, 3, [X, Z], 2, state);
    FedIs(Last(run).machines[3], 3, 2, [Y], 1, second);
    assert [X, Z][..2] == [X, Z] && [Y][..1] == [Y];
    assert !([Y] <= [X, Z]) && !([X, Z] <= [Y]) by { assert [Y][0] != [X, Z][0]; }
    if Theorems.HonestRun(run) {
      Theorems.StateMachineSafety(run, |run.states| - 1, |run.states| - 1, 1, 3);
    }
  }

  lemma InVoters()
    ensures 1 in V && 2 in V && 3 in V
  {
  }
}
