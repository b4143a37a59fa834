/** A run in which a read is ready the moment it is requested, although a leader of a later
    term has by then committed more: an earlier round had confirmed the same index. Every
    acknowledgement in the run is honest. */
module StaleRead {
  import opened Types
  import opened RaftLog
  import opened Event
  import opened RaftCore
  import LeaderRole
  import opened RaftNode
  import Merging
  import opened Cluster
  import opened ThreeServers
  import opened Script
  import Theorems
  import ReadTheorems
  import P = Protocol

  const A := Entry(1, 1, Command([1]))
  const B := Entry(2, 2, Command([2]))

  lemma SmallLogs()
    ensures Short([]) && Short([A]) && Short([A, B]) && Commands([]) && Commands([A]) && Commands([A, B])
    ensures P.LastTerm([]) == 0 && P.LastTerm([A]) == 1 && P.LastTerm([A, B]) == 2
    ensures P.TermAt([A], 1) == 1 && P.TermAt([A, B], 1) == 1 && P.TermAt([A], 0) == 0
    ensures [A][0..] == [A] && [A, B][1..] == [B]
    ensures Merging.Follows([A], 0) && P.MergeAt([], 0, [A]) == [A]
    ensures Merging.Follows([B], 1) && P.MergeAt([A], 1, [B]) == [A, B]
  {
  }

  /** Server 1 leads term 1 and has sent its first command to both others. */
  lemma FirstLeader() returns (run: Run, state: LeaderState)
    ensures Ends(run, Three(Leading(1, 1, [A], 0, state), Idle(2, 1, Some(1), [], None), Idle(3, 0, None, [], None)))
    ensures Truly(run) && (forall to :: 2 <= to <= 3 ==> InNet(run, Message(1, to, 1, AppendRequest(0, 0, [A], 0))))
    ensures state.MatchOf(1) == 1 && state.pendingRead == None && state.nextReadId == 1 && state.confirmedRead == 0
  {
    hide Ends, Server, LeaderRole.Start, LeaderRole.AppendFor, CommitAfter, Commands, Short, Three, Truly;
    hide AfterSending, LeaderRole.BroadcastAppend, Beyond, Started;
    SmallLogs();
    var a, b, c := Idle(1, 0, None, [], None), Idle(2, 0, None, [], None), Idle(3, 0, None, [], None);
    run := Birth();
    var start := Started(1, 1, []);
    var b' := Idle(2, 1, Some(1), [], None);
    ThreeUpdate(a, b, c, Leading(1, 1, [], 0, start));
    ThreeUpdate(Leading(1, 1, [], 0, start), b, c, b');
    run := Elects(run, Three(a, b, c), 1, 0, None, [], 0, None, 2, None, [], None, 2, 1);
    StartKnown(1, 1, []);
    var counted := start.(matchIndex := start.matchIndex[1 := 1]);
    state := AfterSending(1, 1, [A], 0, counted);
    SentKnown(1, 1, [A], 0, counted);
    OneHolds([A], 1, 0, counted, 1);
    ThreeUpdate(Leading(1, 1, [], 0, start), b', c, Leading(1, 1, [A], 0, state));
    run := Appends(run, Three(Leading(1, 1, [], 0, start), b', c), 1, 1, [], 0, start, [1], [A], counted, 0);
    Requests(1, 1, [A], 0, Leader(counted), 1, 2);
    Requests(1, 1, [A], 0, Leader(counted), 1, 3);
  }

  /** Both others hold it, and server 1 has committed it. */
  lemma FirstCommit() returns (run: Run, state: LeaderState)
    ensures Ends(run, Three(Leading(1, 1, [A], 1, state), Idle(2, 1, Some(1), [A], Some(1)),
                            Idle(3, 1, None, [A], Some(1))))
    ensures Truly(run)
    ensures state.pendingRead == None && state.nextReadId == 1 && state.confirmedRead == 0
  {
    hide Ends, Server, Commands, Short, Three, Truly, P.MergeAt;
    SmallLogs();
    var first;
    run, first := FirstLeader();
    var a, b, c := Leading(1, 1, [A], 0, first), Idle(2, 1, Some(1), [], None), Idle(3, 0, None, [], None);
    var b', c' := Idle(2, 1, Some(1), [A], Some(1)), Idle(3, 1, None, [A], Some(1));
    var to2, to3 := Message(1, 2, 1, AppendRequest(0, 0, [A], 0)), Message(1, 3, 1, AppendRequest(0, 0, [A], 0));
    ThreeUpdate(a, b, c, c');
    run := AcceptsAt(run, Three(a, b, c), 0, None, [], 0, None, to3, [A], None);
    ThreeUpdate(a, b, c', b');
    run := AcceptsAt(run, Three(a, b, c'), 1, Some(1), [], 0, None, to2, [A], Some(1));
    state := first.(matchIndex := first.matchIndex[2 := 1]);
    TwoHold([A], 1, 0, state, 1, 2);
    ThreeUpdate(a, b', c', Leading(1, 1, [A], 1, state));
    run := CountsAt(run, Three(a, b', c'), 1, 1, [A], 0, first, 2, 1, state, 1);
  }

  /** A first read round is confirmed. */
  lemma FirstRead() returns (run: Run, state: LeaderState)
    ensures Ends(run, Three(Leading(1, 1, [A], 1, state), Idle(2, 1, Some(1), [A], Some(1)),
                            Idle(3, 1, None, [A], Some(1))))
    ensures Truly(run)
    ensures state.pendingRead == None && state.nextReadId == 2 && state.confirmedRead == 1
  {
    hide Ends, Server, Commands, Short, Three, Truly, Waiting;
    SmallLogs();
    var before;
    run, before := FirstCommit();
    var a, b, c := Leading(1, 1, [A], 1, before), Idle(2, 1, Some(1), [A], Some(1)), Idle(3, 1, None, [A], Some(1));
    var a' := Leading(1, 1, [A], 1, Waiting(1, 1, before));
    ThreeUpdate(a, b, c, a');
    run := ReadsAt(run, Three(a, b, c), 1, 1, [A], 1, before, 2);
    ThreeUpdate(a', b, c, b);
    var ask := Message(1, 2, 1, ReadIndexRequest(1, 1));
    run := AnswersAt(run, Three(a', b, c), 1, Some(1), [A], 0, Some(1), ask, Some(1));
    state := before.(nextReadId := 2, confirmedRead := 1);
    ThreeUpdate(a', b, c, Leading(1, 1, [A], 1, state));
    run := ConfirmsAt(run, Three(a', b, c), 1, 1, [A], 1, before, 2, state);
  }

  /** Server 2 leads term 2, appends a command of its own and sends it to server 3. */
  lemma SecondLeader() returns (run: Run, first: LeaderState, second: LeaderState)
    ensures Ends(run, Three(Leading(1, 1, [A], 1, first), Leading(2, 2, [A, B], 0, second),
                            Idle(3, 2, Some(2), [A], Some(1))))
    ensures Truly(run) && InNet(run, Message(2, 3, 2, AppendRequest(1, 1, [B], 0))) && second.MatchOf(2) == 2
    ensures first.pendingRead == None && first.nextReadId == 2 && first.confirmedRead == 1
  {
    hide Ends, Server, LeaderRole.Start, LeaderRole.AppendFor, CommitAfter, Commands, Short, Three, Truly;
    SmallLogs();
    run, first := FirstRead();
    var a, b, c := Leading(1, 1, [A], 1, first), Idle(2, 1, Some(1), [A], Some(1)), Idle(3, 1, None, [A], Some(1));
    var start := Started(2, 2, [A]);
    var b', c' := Leading(2, 2, [A], 0, start), Idle(3, 2, Some(2), [A], Some(1));
    ThreeUpdate(a, b, c, b');
    ThreeUpdate(a, b', c, c');
    run := Elects(run, Three(a, b, c), 2, 1, Some(1), [A], 0, Some(1), 3, None, [A], Some(1), 3, 2);
    StartKnown(2, 2, [A]);
    var counted := start.(matchIndex := start.matchIndex[2 := 2]);
    second := AfterSending(2, 2, [A, B], 0, counted);
    SentKnown(2, 2, [A, B], 0, counted);
    OneHolds([A, B], 2, 0, counted, 2);
    ThreeUpdate(a, b', c', Leading(2, 2, [A, B], 0, second));
    run := Appends(run, Three(a, b', c'), 2, 2, [A], 0, start, [2], [A, B], counted, 0);
    Requests(2, 2, [A, B], 0, Leader(counted), 2, 3);
  }

  /** It commits both. */
  lemma SecondCommit() returns (run: Run, first: LeaderState, second: LeaderState)
    ensures Ends(run, Three(Leading(1, 1, [A], 1, first), Leading(2, 2, [A, B], 2, second),
                            Idle(3, 2, Some(2), [A, B], Some(2))))
    ensures Truly(run) && first.pendingRead == None && first.nextReadId == 2 && first.confirmedRead == 1
  {
    hide Ends, Server, Commands, Short, Three, Truly, P.MergeAt;
    SmallLogs();
    var before;
    run, first, before := SecondLeader();
    var a, b, c := Leading(1, 1, [A], 1, first), Leading(2, 2, [A, B], 0, before), Idle(3, 2, Some(2), [A], Some(1));
    var c' := Idle(3, 2, Some(2), [A, B], Some(2));
    var m := Message(2, 3, 2, AppendRequest(1, 1, [B], 0));
    ThreeUpdate(a, b, c, c');
    run := AcceptsAt(run, Three(a, b, c), 2, Some(2), [A], 0, Some(1), m, [A, B], Some(2));
    second := before.(matchIndex := before.matchIndex[3 := 2]);
    TwoHold([A, B], 2, 0, second, 2, 3);
    ThreeUpdate(a, b, c', Leading(2, 2, [A, B], 2, second));
    run := CountsAt(run, Three(a, b, c'), 2, 2, [A, B], 0, before, 3, 2, second, 2);
  }

  /** Server 1 asks for a second round. Its read is ready at once, with only its own
      acknowledgement, while server 2 has led a later term and committed past its index. */
  lemma ReadyTooEarly() returns (run: Run, j: nat)
    ensures IsRun(run) && Theorems.HonestRun(run)
    ensures ReadTheorems.Requested(run, j, 1, 1) && IsLeader(run.states[j + 1], 1, 1)
    ensures ReadReady(run.states[j + 1].machines[1].node, Theorems.CommitOf(run.states[j], 1))
    ensures !ReadTheorems.RoundDone(run.states[j + 1], 1, ReadTheorems.RoundId(run.states[j], 1))
    ensures IsLeader(run.states[j], 2, 2)
    ensures Theorems.CommitOf(run.states[j], 2) > Theorems.CommitOf(run.states[j], 1)
  {
    hide Ends, Server, Commands, Short, Three, Truly, Good, Waiting, IsRun, Theorems.HonestRun;
    SmallLogs();
    var first, second;
    run, first, second := SecondCommit();
    var a, b, c := Leading(1, 1, [A], 1, first), Leading(2, 2, [A, B], 2, second), Idle(3, 2, Some(2), [A, B], Some(2));
    var a' := Leading(1, 1, [A], 1, Waiting(1, 1, first));
    ThreeUpdate(a, b, c, a');
    ThreeUpdate(a', b, c, a');
    MachinesAre(run, a, b, c);
    j := |run.moves|;
    ghost var before := run;
    run := ReadsAt(run, Three(a, b, c), 1, 1, [A], 1, first, 2);
    MachinesAre(run, a', b, c);
    Honestly(run);
    NextState(before, run);
    Asked(1, 1, [A], 1, first);
    Known(1, 1, [A], 1, first);
    Known(1, 1, [A], 1, Waiting(1, 1, first));
    Known(2, 2, [A, B], 2, second);
  }

  /** A read that waits is ready if an earlier one was confirmed at its index. */
  lemma Asked(id: NodeId, term: Term, entries: seq<Entry>, commit: LogIndex, state: LeaderState)
    ensures var node := Leading(id, term, entries, commit, Waiting(id, commit, state));
            && (ReadReady(node, commit) <==> state.confirmedRead >= commit)
            && Waiting(id, commit, state).pendingRead.Some?
            && Waiting(id, commit, state).pendingRead.value.id == state.nextReadId
  {
  }
}
