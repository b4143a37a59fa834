/** A run in which a read round is confirmed although a later term already had a leader when
    it was requested. The one answer that counts repeats a round that the same server had
    numbered alike in an older term; the two rounds can only meet at one index because an
    acknowledgement over-reported and committed entries were overwritten in between. */
module EchoRead {
  import opened Types
  import opened RaftLog
  import opened Event
  import opened RaftCore
  import LeaderRole
  import Merging
  import opened Cluster
  import opened ThreeServers
  import opened Script
  import Theorems
  import ReadTheorems
  import P = Protocol

  /** What server 2 appends in term 1 and nobody else ever holds. */
  const U: seq<Entry> := [Entry(1, 1, Command([1])), Entry(1, 2, Command([1])), Entry(1, 3, Command([1]))]
  const A := Entry(2, 1, Command([2]))
  const X := Entry(2, 2, Command([2]))
  const Y := Entry(2, 3, Command([2]))
  const B := Entry(3, 2, Command([3]))
  const C := Entry(4, 3, Command([4]))

  /** Server 1 asks server 3 in term 2, and is answered in term 4. */
  const ASK := Message(1, 3, 2, ReadIndexRequest(1, 3))
  const ECHO := Message(3, 1, 4, ReadIndexResponse(1, 3))

  lemma LogsShort()
    ensures Short([]) && Short(U[..1]) && Short(U[..2]) && Short(U)
    ensures Short([A]) && Short([A, X]) && Short([A, X, Y]) && Short([A, B]) && Short([A, B, C])
    ensures Commands([]) && Commands(U) && Commands([A]) && Commands([A, X]) && Commands([A, X, Y])
    ensures Commands([A, B]) && Commands([A, B, C])
  {
  }

  lemma LogEnds()
    ensures P.LastTerm([]) == 0 && P.LastTerm(U) == 1 && |U| == 3
    ensures P.LastTerm([A]) == 2 && P.LastTerm([A, X]) == 2 && P.LastTerm([A, X, Y]) == 2
    ensures P.LastTerm([A, B]) == 3 && P.LastTerm([A, B, C]) == 4
    ensures P.TermAt([A, X, Y], 3) == 2 && P.TermAt([A, X, Y], 1) == 2 && P.TermAt([A, B], 1) == 2
    ensures P.TermAt([A, B], 2) == 3 && P.TermAt([A, B, C], 2) == 3 && P.TermAt([A, B, C], 3) == 4
  {
  }

  lemma LogParts()
    ensures [A][0..] == [A] && [A, B][1..] == [B] && [A, B, C][2..] == [C]
    ensures U[..1] == [U[0]] && U[..2] == U[..1] + [U[1]] && U == U[..2] + [U[2]]
    ensures Merging.Follows([], 0) && Merging.Follows([A], 0) && Merging.Follows([B], 1) && Merging.Follows([C], 2)
    ensures P.MergeAt(U, 0, []) == U && P.MergeAt([], 0, [A]) == [A]
    ensures P.MergeAt([A, X, Y], 1, [B]) == [A, B] && P.MergeAt([A, B], 2, [C]) == [A, B, C]
  {
  }

  /** Server 2 leads term 1 and holds three commands that nobody else has. */
  lemma OldLeader() returns (run: Run, state: LeaderState)
    ensures Ends(run, Three(Idle(1, 1, Some(2), [], None), Leading(2, 1, U, 0, state), Idle(3, 1, Some(2), [], None)))
  {
    hide Ends, Server, LeaderRole.Start, LeaderRole.AppendFor, CommitAfter, Commands, Short, Three, Truly;
    LogsShort();
    LogParts();
    var a, b, c := Idle(1, 0, None, [], None), Idle(2, 0, None, [], None), Idle(3, 0, None, [], None);
    run := Birth();
    var start := Started(2, 1, []);
    var led, c', a' := Leading(2, 1, [], 0, start), Idle(3, 1, Some(2), [], None), Idle(1, 1, Some(2), [], None);
    ThreeUpdate(a, b, c, led);
    ThreeUpdate(a, led, c, c');
    run := Elects(run, Three(a, b, c), 2, 0, None, [], 0, None, 3, None, [], None, 3, 1);
    ThreeUpdate(a, led, c', a');
    run := Grants(run, Three(a, led, c'), 0, None, [], 0, None, Message(2, 1, 1, VoteRequest(0, 0)));
    StartKnown(2, 1, []);
    var one, two;
    run, one := OldAppend(run, a', c', [], U[..1], start);
    run, two := OldAppend(run, a', c', U[..1], U[..2], one);
    run, state := OldAppend(run, a', c', U[..2], U, two);
  }

  lemma OldAppend(run: Run, a: Node, c: Node, entries: seq<Entry>, grown: seq<Entry>, state: LeaderState)
    returns (run': Run, state': LeaderState)
    requires Short(entries) && |entries| < 3 && grown == entries + [Entry(1, |entries| + 1, Command([1]))]
    requires Commands(grown) && state.MatchOf(1) == 0 && state.MatchOf(3) == 0 && Tracking(state)
    requires Ends(run, Three(a, Leading(2, 1, entries, 0, state), c))
    ensures Ends(run', Three(a, Leading(2, 1, grown, 0, state'), c))
    ensures state'.MatchOf(1) == 0 && state'.MatchOf(3) == 0 && Tracking(state')
  {
    hide Ends, Server, Short, Commands, Three, Truly, CommitAfter, AfterSending, Tracking;
    var counted := state.(matchIndex := state.matchIndex[2 := |grown|]);
    state' := AfterSending(2, 1, grown, 0, counted);
    SameTracking(state, counted);
    SentKnown(2, 1, grown, 0, counted);
    OneHolds(grown, 1, 0, counted, 2);
    ThreeUpdate(a, Leading(2, 1, entries, 0, state), c, Leading(2, 1, grown, 0, state'));
    run' := Appends(run, Three(a, Leading(2, 1, entries, 0, state), c), 2, 1, entries, 0, state, [1], grown, counted,
                    0);
  }

  /** Server 1 leads term 2; server 2 answers its heartbeat and claims all three. */
  lemma OverReport() returns (run: Run)
    ensures Ends(run, Three(Leading(1, 2, [], 0, Started(1, 2, [])), Idle(2, 2, None, U, Some(1)),
                            Idle(3, 2, Some(1), [], None)))
    ensures InNet(run, Message(2, 1, 2, AppendResponse(true, 3)))
  {
    hide Ends, Server, LeaderRole.Start, LeaderRole.AppendFor, Commands, Short, Three, Truly, P.MergeAt;
    LogsShort();
    LogEnds();
    LogParts();
    var prior;
    run, prior := OldLeader();
    var a, b, c := Idle(1, 1, Some(2), [], None), Leading(2, 1, U, 0, prior), Idle(3, 1, Some(2), [], None);
    var a', c' := Leading(1, 2, [], 0, Started(1, 2, [])), Idle(3, 2, Some(1), [], None);
    var b' := Idle(2, 2, None, U, Some(1));
    ThreeUpdate(a, b, c, a');
    ThreeUpdate(a', b, c, c');
    run := Elects(run, Three(a, b, c), 1, 1, Some(2), [], 0, None, 3, Some(2), [], None, 2, 2);
    Requests(1, 2, [], 0, Candidate({1}), 1, 2);
    var beat := Message(1, 2, 2, AppendRequest(0, 0, [], 0));
    assert InNet(run, beat);
    ThreeUpdate(a', b, c', b');
    run := StepsDownAt(run, Three(a', b, c'), 1, Some(2), U, 0, prior, beat);
    ThreeUpdate(a', b', c', b');
    run := AcceptsAt(run, Three(a', b', c'), 2, None, U, 0, Some(1), beat, U, None);
  }

  lemma FirstEntry() returns (run: Run, state: LeaderState)
    ensures Ends(run, Three(Leading(1, 2, [A], 0, state), Idle(2, 2, None, U, Some(1)),
                            Idle(3, 2, Some(1), [], None)))
    ensures InNet(run, Message(1, 3, 2, AppendRequest(0, 0, [A], 0)))
    ensures InNet(run, Message(2, 1, 2, AppendResponse(true, 3)))
    ensures state.MatchOf(1) == 1 && state.pendingRead == None && state.nextReadId == 1 && Tracking(state)
  {
    hide Ends, Server, LeaderRole.Start, LeaderRole.AppendFor, Commands, Short, Three, Truly, P.MergeAt, Started;
    LogsShort();
    LogEnds();
    LogParts();
    hide AfterSending, LeaderRole.BroadcastAppend, Beyond;
    run := OverReport();
    StartKnown(1, 2, []);
    var start := Started(1, 2, []);
    var b, c := Idle(2, 2, None, U, Some(1)), Idle(3, 2, Some(1), [], None);
    var counted := start.(matchIndex := start.matchIndex[1 := 1]);
    state := AfterSending(1, 2, [A], 0, counted);
    SentKnown(1, 2, [A], 0, counted);
    OneHolds([A], 2, 0, counted, 1);
    ThreeUpdate(Leading(1, 2, [], 0, start), b, c, Leading(1, 2, [A], 0, state));
    run := Appends(run, Three(Leading(1, 2, [], 0, start), b, c), 1, 2, [], 0, start, [2], [A], counted, 0);
    Requests(1, 2, [A], 0, Leader(counted), 1, 3);
    assert InNet(run, Message(1, 3, 2, AppendRequest(0, 0, [A], 0)));
  }

  /** Server 1 appends a command, sends it to server 3, and commits it on the claim. */
  lemma FirstCommit() returns (run: Run, state: LeaderState)
    ensures Ends(run, Three(Leading(1, 2, [A], 1, state), Idle(2, 2, None, U, Some(1)),
                            Idle(3, 2, Some(1), [A], Some(1))))
    ensures state.MatchOf(2) == 3 && state.pendingRead == None && state.nextReadId == 1 && Tracking(state)
  {
    hide Ends, Server, Commands, Short, Three, Truly, P.MergeAt;
    LogsShort();
    LogEnds();
    LogParts();
    var one;
    run, one := FirstEntry();
    var a, b, c := Leading(1, 2, [A], 0, one), Idle(2, 2, None, U, Some(1)), Idle(3, 2, Some(1), [], None);
    var m := Message(1, 3, 2, AppendRequest(0, 0, [A], 0));
    var c' := Idle(3, 2, Some(1), [A], Some(1));
    ThreeUpdate(a, b, c, c');
    run := AcceptsAt(run, Three(a, b, c), 2, Some(1), [], 0, None, m, [A], Some(1));
    state := one.(matchIndex := one.matchIndex[2 := 3]);
    TwoHold([A], 2, 0, state, 1, 2);
    ThreeUpdate(a, b, c', Leading(1, 2, [A], 1, state));
    run := CountsAt(run, Three(a, b, c'), 1, 2, [A], 0, one, 2, 3, state, 1);
  }

  /** It commits two more. */
  lemma ThreeCommitted() returns (run: Run, state: LeaderState)
    ensures Ends(run, Three(Leading(1, 2, [A, X, Y], 3, state), Idle(2, 2, None, U, Some(1)),
                            Idle(3, 2, Some(1), [A], Some(1))))
    ensures state.pendingRead == None && state.nextReadId == 1
  {
    hide Ends, Server, Commands, Short, Three, Truly, AfterSending;
    LogsShort();
    LogEnds();
    var one;
    run, one := FirstCommit();
    var b, c := Idle(2, 2, None, U, Some(1)), Idle(3, 2, Some(1), [A], Some(1));
    var counted := one.(matchIndex := one.matchIndex[1 := 2]);
    var two := AfterSending(1, 2, [A, X], 2, counted);
    SentKnown(1, 2, [A, X], 2, counted);
    TwoHold([A, X], 2, 1, counted, 1, 2);
    ThreeUpdate(Leading(1, 2, [A], 1, one), b, c, Leading(1, 2, [A, X], 2, two));
    run := Appends(run, Three(Leading(1, 2, [A], 1, one), b, c), 1, 2, [A], 1, one, [2], [A, X], counted, 2);
    var again := two.(matchIndex := two.matchIndex[1 := 3]);
    state := AfterSending(1, 2, [A, X, Y], 3, again);
    SentKnown(1, 2, [A, X, Y], 3, again);
    TwoHold([A, X, Y], 2, 2, again, 1, 2);
    ThreeUpdate(Leading(1, 2, [A, X], 2, two), b, c, Leading(1, 2, [A, X, Y], 3, state));
    run := Appends(run, Three(Leading(1, 2, [A, X], 2, two), b, c), 1, 2, [A, X], 2, two, [2], [A, X, Y], again, 3);
  }

  /** It asks for a read round, and crashes. */
  lemma LongCommit() returns (run: Run)
    ensures Ends(run, Three(Idle(1, 2, Some(1), [A, X, Y], None), Idle(2, 2, None, U, Some(1)),
                            Idle(3, 2, Some(1), [A], Some(1))))
    ensures InNet(run, ASK)
  {
    hide Ends, Server, Commands, Short, Three, Truly, Waiting;
    LogsShort();
    LogEnds();
    var three;
    run, three := ThreeCommitted();
    var b, c := Idle(2, 2, None, U, Some(1)), Idle(3, 2, Some(1), [A], Some(1));
    var a := Leading(1, 2, [A, X, Y], 3, three);
    var a' := Leading(1, 2, [A, X, Y], 3, Waiting(1, 3, three));
    ThreeUpdate(a, b, c, a');
    run := ReadsAt(run, Three(a, b, c), 1, 2, [A, X, Y], 3, three, 3);
    ThreeUpdate(a', b, c, Idle(1, 2, Some(1), [A, X, Y], None));
    run := Crashes(run, Three(a', b, c), 1, 2, Some(1), [A, X, Y], 3, Leader(Waiting(1, 3, three)));
  }

  /** Server 3 leads term 3 and overwrites what server 1 had committed. */
  lemma Overwritten() returns (run: Run, state: LeaderState)
    ensures Ends(run, Three(Idle(1, 3, None, [A, B], Some(3)), Idle(2, 3, Some(3), U, Some(1)),
                            Leading(3, 3, [A, B], 0, state)))
    ensures InNet(run, ASK)
  {
    hide Ends, Server, LeaderRole.Start, LeaderRole.AppendFor, CommitAfter, Commands, Short, Three, Truly, P.MergeAt;
    LogsShort();
    LogEnds();
    LogParts();
    run := LongCommit();
    var a, b, c := Idle(1, 2, Some(1), [A, X, Y], None), Idle(2, 2, None, U, Some(1)),
        Idle(3, 2, Some(1), [A], Some(1));
    var start := Started(3, 3, [A]);
    var c', b' := Leading(3, 3, [A], 0, start), Idle(2, 3, Some(3), U, Some(1));
    ThreeUpdate(a, b, c, c');
    ThreeUpdate(a, b, c', b');
    run := Elects(run, Three(a, b, c), 3, 2, Some(1), [A], 0, Some(1), 2, None, U, Some(1), 1, 3);
    StartKnown(3, 3, [A]);
    var counted := start.(matchIndex := start.matchIndex[3 := 2]);
    state := AfterSending(3, 3, [A, B], 0, counted);
    OneHolds([A, B], 3, 0, counted, 3);
    ThreeUpdate(a, b', c', Leading(3, 3, [A, B], 0, state));
    run := Appends(run, Three(a, b', c'), 3, 3, [A], 0, start, [3], [A, B], counted, 0);
    Requests(3, 3, [A, B], 0, Leader(counted), 2, 1);
    var m := Message(3, 1, 3, AppendRequest(1, 2, [B], 0));
    assert InNet(run, m);
    ThreeUpdate(a, b', Leading(3, 3, [A, B], 0, state), Idle(1, 3, None, [A, B], Some(3)));
    run := AcceptsAt(run, Three(a, b', Leading(3, 3, [A, B], 0, state)), 2, Some(1), [A, X, Y], 0, None, m, [A, B],
                     None);
  }

  /** Server 1 leads again, in term 4, and server 3 steps down for it. */
  lemma LeadsAgain() returns (run: Run, state: LeaderState)
    ensures Ends(run, Three(Leading(1, 4, [A, B, C], 0, state), Idle(2, 4, Some(1), U, Some(1)),
                            Idle(3, 4, None, [A, B], Some(1))))
    ensures InNet(run, ASK) && InNet(run, Message(1, 3, 4, AppendRequest(2, 3, [C], 0)))
    ensures state.MatchOf(1) == 3 && state.pendingRead == None && state.nextReadId == 1
  {
    hide Ends, Server, LeaderRole.Start, LeaderRole.AppendFor, CommitAfter, Commands, Short, Three, Truly;
    LogsShort();
    LogEnds();
    LogParts();
    var third;
    run, third := Overwritten();
    var a, b, c := Idle(1, 3, None, [A, B], Some(3)), Idle(2, 3, Some(3), U, Some(1)), Leading(3, 3, [A, B], 0, third);
    var start := Started(1, 4, [A, B]);
    var a', b' := Leading(1, 4, [A, B], 0, start), Idle(2, 4, Some(1), U, Some(1));
    ThreeUpdate(a, b, c, a');
    ThreeUpdate(a', b, c, b');
    run := Elects(run, Three(a, b, c), 1, 3, None, [A, B], 0, Some(3), 2, Some(3), U, Some(1), 3, 4);
    StartKnown(1, 4, [A, B]);
    var counted := start.(matchIndex := start.matchIndex[1 := 3]);
    state := AfterSending(1, 4, [A, B, C], 0, counted);
    SentKnown(1, 4, [A, B, C], 0, counted);
    OneHolds([A, B, C], 4, 0, counted, 1);
    ThreeUpdate(a', b', c, Leading(1, 4, [A, B, C], 0, state));
    run := Appends(run, Three(a', b', c), 1, 4, [A, B], 0, start, [4], [A, B, C], counted, 0);
    Requests(1, 4, [A, B, C], 0, Leader(counted), 3, 3);
    var m := Message(1, 3, 4, AppendRequest(2, 3, [C], 0));
    assert InNet(run, m);
    ThreeUpdate(Leading(1, 4, [A, B, C], 0, state), b', c, Idle(3, 4, None, [A, B], Some(1)));
    run := StepsDownAt(run, Three(Leading(1, 4, [A, B, C], 0, state), b', c), 3, Some(3), [A, B], 0, third, m);
  }

  /** It commits at the old index; server 3 answers the request of term 2 in term 4. */
  lemma CommitsAgain() returns (run: Run, state: LeaderState)
    ensures Ends(run, Three(Leading(1, 4, [A, B, C], 3, state), Idle(2, 4, Some(1), U, Some(1)),
                            Idle(3, 4, None, [A, B, C], Some(1))))
    ensures InNet(run, ECHO) && state.pendingRead == None && state.nextReadId == 1
  {
    hide Ends, Server, Commands, Short, Three, Truly, P.MergeAt;
    LogsShort();
    LogEnds();
    LogParts();
    var before;
    run, before := LeadsAgain();
    var a, b, c := Leading(1, 4, [A, B, C], 0, before), Idle(2, 4, Some(1), U, Some(1)),
        Idle(3, 4, None, [A, B], Some(1));
    var c' := Idle(3, 4, None, [A, B, C], Some(1));
    var m := Message(1, 3, 4, AppendRequest(2, 3, [C], 0));
    ThreeUpdate(a, b, c, c');
    run := AcceptsAt(run, Three(a, b, c), 4, None, [A, B], 0, Some(1), m, [A, B, C], None);
    state := before.(matchIndex := before.matchIndex[3 := 3]);
    TwoHold([A, B, C], 4, 0, state, 1, 3);
    var a' := Leading(1, 4, [A, B, C], 3, state);
    ThreeUpdate(a, b, c', a');
    run := CountsAt(run, Three(a, b, c'), 1, 4, [A, B, C], 0, before, 3, 3, state, 3);
    ThreeUpdate(a', b, c', c');
    run := AnswersAt(run, Three(a', b, c'), 4, None, [A, B, C], 0, Some(1), ASK, Some(1));
  }

  /** Server 3 leads term 5. */
  lemma LaterLeader() returns (run: Run, state: LeaderState)
    ensures Ends(run, Three(Leading(1, 4, [A, B, C], 3, state), Idle(2, 5, Some(3), U, Some(1)),
                            Leading(3, 5, [A, B, C], 0, Started(3, 5, [A, B, C]))))
    ensures InNet(run, ECHO) && state.pendingRead == None && state.nextReadId == 1
  {
    hide Ends, Server, LeaderRole.Start, LeaderRole.AppendFor, Commands, Short, Three, Truly;
    LogsShort();
    LogEnds();
    run, state := CommitsAgain();
    var a, b, c := Leading(1, 4, [A, B, C], 3, state), Idle(2, 4, Some(1), U, Some(1)),
        Idle(3, 4, None, [A, B, C], Some(1));
    var c' := Leading(3, 5, [A, B, C], 0, Started(3, 5, [A, B, C]));
    ThreeUpdate(a, b, c, c');
    ThreeUpdate(a, b, c', Idle(2, 5, Some(3), U, Some(1)));
    run := Elects(run, Three(a, b, c), 3, 4, None, [A, B, C], 0, Some(1), 2, Some(1), U, Some(1), 1, 5);
  }

  /** Server 1 asks for a round while server 3 leads the later term, and the answer given
      before, to the round of term 2, confirms it. */
  lemma ConfirmedByEcho() returns (run: Run, j: nat)
    ensures IsRun(run)
    ensures ReadTheorems.Requested(run, j, 1, 4) && j + 2 < |run.states| && IsLeader(run.states[j + 2], 1, 4)
    ensures ReadTheorems.RoundDone(run.states[j + 2], 1, ReadTheorems.RoundId(run.states[j], 1))
    ensures IsLeader(run.states[j], 3, 5)
    ensures ReadTheorems.NumberedBefore(run, j, 1, 4) && !Theorems.HonestRun(run)
  {
    hide Ends, Server, Commands, Short, Three, Truly, Waiting, IsRun, Theorems.HonestRun, Started;
    hide ReadTheorems.NumberedBefore;
    LogsShort();
    LogEnds();
    var state;
    run, state := LaterLeader();
    var later := Started(3, 5, [A, B, C]);
    var a, b, c := Leading(1, 4, [A, B, C], 3, state), Idle(2, 5, Some(3), U, Some(1)),
        Leading(3, 5, [A, B, C], 0, later);
    var a' := Leading(1, 4, [A, B, C], 3, Waiting(1, 3, state));
    var done := state.(nextReadId := 2, confirmedRead := Max(state.confirmedRead, 3));
    var a'' := Leading(1, 4, [A, B, C], 3, done);
    ThreeUpdate(a, b, c, a');
    ThreeUpdate(a', b, c, a'');
    j := |run.moves|;
    MachinesAre(run, a, b, c);
    ghost var before := run;
    run := ReadsAt(run, Three(a, b, c), 1, 4, [A, B, C], 3, state, 3);
    MachinesAre(run, a', b, c);
    NextState(before, run);
    ghost var asked := run;
    run := ConfirmsAt(run, Three(a', b, c), 1, 4, [A, B, C], 3, state, 3, done);
    MachinesAre(run, a'', b, c);
    NextState(asked, run);
    Known(1, 4, [A, B, C], 3, state);
    Known(1, 4, [A, B, C], 3, done);
    Known(3, 5, [A, B, C], 0, later);
    assert run.states[j] == asked.states[j] && run.moves[j] == asked.moves[j];
    ReadTheorems.ReadLeaders(run, j, j + 2, 1, 4, j, 3, 5);
    if Theorems.HonestRun(run) {
      ReadTheorems.ReadIndexSound(run, j, j + 2, 1, 4, j, 3);
    }
  }
}
