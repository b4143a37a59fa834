/** Read rounds over whole runs: what a confirmed round says about the moment it was
    requested, and what it means that a read is ready. */
module ReadTheorems {
  import opened Types
  import opened Event
  import opened RaftCore
  import opened RaftNode
  import opened Refinement
  import opened RefineStep
  import opened RefineLeader
  import opened Cluster
  import opened History
  import opened Invariant
  import opened Safety
  import opened Theorems
  import opened ReadRounds
  import Completeness
  import ReadIndex
  import CommitSafety
  import ReadSafety
  import LogMatching
  import P = Protocol

  function LeaderOf(c: ClusterState, i: NodeId): LeaderState
    requires i in c.machines && c.machines[i].node.role.Leader?
  {
    c.machines[i].node.role.state
  }

  /** Move `j` is server `i`'s request, as leader of term `t`, for a read round. */
  ghost predicate Requested(run: Run, j: nat, i: NodeId, t: Term)
    requires IsRun(run)
  {
    j < |run.moves| && run.moves[j] == Move(i, ReadStep) && IsLeader(run.states[j], i, t)
  }

  /** The number a round requested in this state gets. */
  function RoundId(c: ClusterState, i: NodeId): nat
    requires i in c.machines && c.machines[i].node.role.Leader?
  {
    LeaderOf(c, i).nextReadId
  }

  /** The round numbered `id` is no longer waiting for acknowledgements. */
  predicate RoundDone(c: ClusterState, i: NodeId, id: nat)
    requires i in c.machines && c.machines[i].node.role.Leader?
  {
    var pending := LeaderOf(c, i).pendingRead;
    pending.None? || pending.value.id != id
  }

  // ----- Rounds of the history are requests of the run -----

  /** Requesting a round numbers it and leaves the commit index alone. */
  lemma ReadStarts(c: ClusterState, i: NodeId)
    requires Possible(c, i, ReadStep)
    ensures c.machines[i].node.role.Leader? && LeaderOf(c, i).pendingRead.None?
    ensures var c' := Do(c, i, ReadStep);
            && i in c'.machines && c'.machines[i].node.role.Leader? && TermOf(c', i) == TermOf(c, i)
            && CommitOf(c', i) == CommitOf(c, i) && RoundId(c', i) == RoundId(c, i) + 1
  {
    hide ApplyCommitted;
    ApplyOnlyCounts(c.machines[i].node.core, c.machines[i].applied);
  }

  /** No other step numbers a round. */
  lemma StepKeepsNumbers(c: ClusterState, i: NodeId, step: Step)
    requires Possible(c, i, step) && ClusterOk(c) && !step.ReadStep?
    ensures i in Do(c, i, step).machines
    ensures NumbersKept(c.machines[i].node, Do(c, i, step).machines[i].node)
  {
    hide NodeStep, ApplyCommitted;
    assert MachineOk(c.voters, i, c.machines[i]);
    var node' := NodeStep(c, i, step).0;
    NodeKeepsNumbers(c, i, step);
    ApplyOnlyCounts(node'.core, if step.CrashStep? then [] else c.machines[i].applied);
  }

  lemma NodeKeepsNumbers(c: ClusterState, i: NodeId, step: Step)
    requires Possible(c, i, step) && MachineOk(c.voters, i, c.machines[i]) && !step.ReadStep?
    ensures NumbersKept(c.machines[i].node, NodeStep(c, i, step).0)
  {
    hide StepEvent, Propose, RequestReadIndex, TransferLeadership, NodeOk;
    var node := c.machines[i].node;
    match step
    case TickStep(expired) => EventKeepsNumbers(c.voters, node, Tick(expired));
    case DeliverStep(m, recent) => EventKeepsNumbers(c.voters, node, Receive(m, recent));
    case ProposeStep(command) => ProposalKeepsNumbers(c.voters, node, command);
    case _ =>
  }

  /** The round that a request puts into the history. */
  lemma NewRoundIs(run: Run, hs: seq<History>, strict: bool, j: nat, t: Term, id: nat)
    requires IsRun(run) && Witness(strict, run, hs) && j + 1 < |hs|
    requires (t, id) in hs[j + 1].rounds && (t, id) !in hs[j].rounds
    ensures var i := run.moves[j].who;
            && Requested(run, j, i, t) && RoundId(run.states[j], i) == id
            && CommitOf(run.states[j], i) == hs[j + 1].rounds[(t, id)].readIndex
  {
    hide Possible, Do, Tracks, Extends, NumbersKept, NewOf, NewRound, Abs, View, LedSince;
    assert Grown(run, hs, j);
    var c, c', i, step := run.states[j], run.states[j + 1], run.moves[j].who, run.moves[j].step;
    NewRoundHere(strict, c, c', i, hs[j], hs[j + 1], t, id);
    RoundsBelow(strict, c', hs[j + 1], i, t, id);
    ClusterOkOf(strict, c, hs[j]);
    if step.ReadStep? {
      ReadStarts(c, i);
      RoundsAbove(strict, c, hs[j], i, t, id);
    } else {
      StepKeepsNumbers(c, i, step);
      NumbersKeptMeans(c.machines[i].node, c'.machines[i].node);
      if c.machines[i].node.role.Leader? && TermOf(c, i) == t {
        RoundsAbove(strict, c, hs[j], i, t, id);
      }
    }
  }

  lemma NumbersKeptMeans(node: Node, node': Node)
    requires NumbersKept(node, node') && node'.role.Leader? && node'.role.state.nextReadId > 1
    ensures node.role.Leader? && node.core.p.term == node'.core.p.term
    ensures node.role.state.nextReadId == node'.role.state.nextReadId
  {
  }

  lemma NewRoundHere(strict: bool, c: ClusterState, c': ClusterState, i: NodeId, h: History, h': History, t: Term,
                     id: nat)
    requires i in c.machines && i in c'.machines && (t, id) in h'.rounds && (t, id) !in h.rounds
    requires NewOf(Abs(c).servers[i], Abs(c').servers[i], h, h')
    ensures IsLeader(c', i, t) && id >= 1 && h'.rounds[(t, id)].readIndex <= CommitOf(c', i)
    ensures IsLeader(c, i, t) ==> CommitOf(c, i) <= h'.rounds[(t, id)].readIndex
  {
    assert NewRound(Abs(c).servers[i], Abs(c').servers[i], t, id, h');
  }

  lemma ClusterOkOf(strict: bool, c: ClusterState, h: History)
    requires Tracks(strict, c, h)
    ensures ClusterOk(c) && CaughtUp(c)
  {
    hide Inv, ClusterOk, CaughtUp, AllApplied;
  }

  /** The rounds of a term are those its leader has numbered. */
  lemma RoundsBelow(strict: bool, c: ClusterState, h: History, i: NodeId, t: Term, id: nat)
    requires Tracks(strict, c, h) && IsLeader(c, i, t) && (t, id) in h.rounds
    ensures id < RoundId(c, i)
  {
    hide Tracks;
    LeaderKnown(strict, c, h, i);
  }

  lemma RoundsAbove(strict: bool, c: ClusterState, h: History, i: NodeId, t: Term, id: nat)
    requires Tracks(strict, c, h) && IsLeader(c, i, t) && (t, id) !in h.rounds && id >= 1
    ensures id >= RoundId(c, i)
  {
    hide Tracks;
    LeaderKnown(strict, c, h, i);
  }

  /** A round with these numbers was requested before state `k`. */
  ghost predicate RoundHad(run: Run, k: nat, i: NodeId, t: Term, id: nat, readIndex: LogIndex)
    requires IsRun(run)
  {
    exists j: nat ::
      j < k && Requested(run, j, i, t) && RoundId(run.states[j], i) == id && CommitOf(run.states[j], i) == readIndex
  }

  lemma {:induction false} RoundsHad(run: Run, hs: seq<History>, strict: bool, k: nat, i: NodeId, t: Term, id: nat)
    requires IsRun(run) && Witness(strict, run, hs) && k < |hs|
    requires (t, id) in hs[k].rounds && LedBy(i, t, hs[k])
    ensures RoundHad(run, k, i, t, id, hs[k].rounds[(t, id)].readIndex)
    decreases k
  {
    hide Possible, Do, Tracks, NumbersKept;
    assert k > 0;
    if (t, id) in hs[k - 1].rounds {
      assert Extends(hs[k - 1], hs[k - 1 + 1]);
      LedBefore(run, hs, strict, k - 1, t, id);
      RoundsHad(run, hs, strict, k - 1, i, t, id);
      var r := hs[k].rounds[(t, id)].readIndex;
      var j: nat :| j < k - 1 && Requested(run, j, i, t) && RoundId(run.states[j], i) == id
                    && CommitOf(run.states[j], i) == r;
      assert j < k;
    } else {
      NewRoundIs(run, hs, strict, k - 1, t, id);
      var j := k - 1;
      LeaderKnown(strict, run.states[j], hs[j], run.moves[j].who);
      assert Extends(hs[j], hs[j + 1]);
      assert run.moves[j].who == i;
    }
  }

  lemma LedBefore(run: Run, hs: seq<History>, strict: bool, k: nat, t: Term, id: nat)
    requires IsRun(run) && Witness(strict, run, hs) && k < |hs| && (t, id) in hs[k].rounds
    ensures t in hs[k].elections
  {
    hide Possible, Do, Extends, Grown;
    TermsElectedOf(strict, run.states[k], hs[k]);
  }

  lemma TermsElectedOf(strict: bool, c: ClusterState, h: History)
    requires Tracks(strict, c, h)
    ensures TermsElected(h)
  {
    hide VoteOk, PhaseOk, VoteMessagesOk, VotesJustified, BackedBy, TermsElected, ClusterOk, AllApplied;
    hide LogMatching.LogInv, Completeness.HeldInv, ReadIndex.ReadInv, ReadSafety.MarkInv, ReadSafety.ConfirmsSound;
    hide CommitSafety.CommitInv, ReadSafety.MarksHeld;
  }

  /** A request is recorded with the commit index of its moment. */
  lemma RequestRecorded(run: Run, hs: seq<History>, strict: bool, j: nat, i: NodeId, t: Term)
    requires IsRun(run) && Witness(strict, run, hs) && j + 1 < |hs| && Requested(run, j, i, t)
    ensures var id := RoundId(run.states[j], i);
            && id >= 1 && (t, id) !in hs[j].rounds && (t, id) in hs[j + 1].rounds
            && hs[j + 1].rounds[(t, id)].readIndex == CommitOf(run.states[j], i)
            && hs[j].elections.Keys <= hs[j + 1].rounds[(t, id)].elected
  {
    hide Possible, Do, Tracks, Grown;
    var c, c' := run.states[j], run.states[j + 1];
    assert Possible(c, i, ReadStep) && c' == Do(c, i, ReadStep);
    ReadStarts(c, i);
    LeaderKnown(strict, c, hs[j], i);
    LeaderKnown(strict, c', hs[j + 1], i);
    assert Extends(hs[j], hs[j + 1]);
    NewRoundIs(run, hs, strict, j, t, RoundId(c, i));
  }

  // ----- Leading without a break -----

  /** Between two moments at which a server leads a term it leads it all along, and its
      commit index only rises. */
  lemma {:induction false} LeadsBetween(run: Run, hs: seq<History>, strict: bool, j: nat, m: nat, k: nat, i: NodeId,
                                        t: Term)
    requires IsRun(run) && Witness(strict, run, hs) && j <= m <= k < |hs|
    requires IsLeader(run.states[j], i, t) && IsLeader(run.states[k], i, t)
    ensures IsLeader(run.states[m], i, t) && CommitOf(run.states[m], i) <= CommitOf(run.states[k], i)
    decreases k - m
  {
    hide Possible, Do, Tracks, Extends, Abs, RoundsKnown;
    if m < k {
      LeadsBetween(run, hs, strict, j, m + 1, k, i, t);
      LeaderKnown(strict, run.states[j], hs[j], i);
      HistoryGrows(strict, run, hs, j, m);
      LedStill(hs[j], hs[m], i, t);
      assert Grown(run, hs, m);
      OthersStill(run.states[m], run.moves[m].who, run.moves[m].step, i);
      if run.moves[m].who == i {
        LedSinceMeans(run.states[m], run.states[m + 1], i, t, hs[m]);
      }
    }
  }

  lemma LedStill(h: History, h': History, i: NodeId, t: Term)
    requires Extends(h, h') && LedBy(i, t, h)
    ensures LedBy(i, t, h')
  {
  }

  lemma LedSinceMeans(c: ClusterState, c': ClusterState, i: NodeId, t: Term, h: History)
    requires i in c.machines && IsLeader(c', i, t) && LedBy(i, t, h)
    requires LedSince(i, Abs(c).servers[i], Abs(c').servers[i], h)
    ensures IsLeader(c, i, t) && CommitOf(c, i) <= CommitOf(c', i)
  {
    assert P.StillLeads(t, Abs(c').servers[i]);
  }

  /** A leader's rounds are confirmed, all but the one that waits. */
  lemma DoneIsConfirmed(run: Run, hs: seq<History>, strict: bool, j: nat, k: nat, i: NodeId, t: Term)
    requires IsRun(run) && Witness(strict, run, hs) && Requested(run, j, i, t)
    requires j < k < |hs| && IsLeader(run.states[k], i, t)
    ensures var id := RoundId(run.states[j], i);
            RoundDone(run.states[k], i, id) <==> (t, id) in hs[k].confirmed
  {
    hide Possible, Do, Tracks, Grown;
    RequestRecorded(run, hs, strict, j, i, t);
    HistoryGrows(strict, run, hs, j + 1, k);
    LeaderKnown(strict, run.states[k], hs[k], i);
  }

  /** When a leader asks for a round, every round it asked for before is done. */
  lemma EarlierDone(run: Run, hs: seq<History>, strict: bool, j: nat, j': nat, i: NodeId, t: Term)
    requires IsRun(run) && Witness(strict, run, hs) && j < j' < |hs|
    requires Requested(run, j, i, t) && Requested(run, j', i, t)
    ensures (t, RoundId(run.states[j], i)) in hs[j'].confirmed
  {
    hide Do, Tracks, Grown, Witness;
    ReadStarts(run.states[j'], i);
    DoneIsConfirmed(run, hs, strict, j, j', i, t);
  }

  // ----- What a confirmed round says -----

  /** The server asked for a round with the same number at the same commit index when it led
      an older term. */
  ghost predicate NumberedBefore(run: Run, j: nat, i: NodeId, t: Term)
    requires IsRun(run) && Requested(run, j, i, t)
  {
    exists w: Term ::
      w < t && RoundHad(run, j, i, w, RoundId(run.states[j], i), CommitOf(run.states[j], i))
  }

  /** In every run: once a leader has confirmed a read round, no later term had a leader when
      the round was requested, unless the server had numbered a round alike in an older term. */
  lemma ReadLeaders(run: Run, j: nat, k: nat, i: NodeId, t: Term, l: nat, b: NodeId, u: Term)
    requires IsRun(run) && Requested(run, j, i, t)
    requires j < k < |run.states| && IsLeader(run.states[k], i, t)
    requires RoundDone(run.states[k], i, RoundId(run.states[j], i))
    requires l <= j && IsLeader(run.states[l], b, u)
    ensures u <= t || NumberedBefore(run, j, i, t)
  {
    hide Possible, Do, Tracks, Extends, RoundsKnown, Grown, RoundDone, NumberedBefore;
    var hs := RunWitness(false, run);
    var id := RoundId(run.states[j], i);
    ConfirmedRound(run, hs, false, j, k, i, t);
    ElectedBy(run, hs, false, l, j, b, u);
    if ReadIndex.Echo(i, t, id, CommitOf(run.states[j], i), hs[k]) {
      EchoIsRequest(run, hs, false, j, k, i, t);
    }
  }

  /** What the history says of a round that is done. */
  lemma ConfirmedRound(run: Run, hs: seq<History>, strict: bool, j: nat, k: nat, i: NodeId, t: Term)
    requires IsRun(run) && Witness(strict, run, hs) && Requested(run, j, i, t)
    requires j < k < |hs| && IsLeader(run.states[k], i, t)
    requires RoundDone(run.states[k], i, RoundId(run.states[j], i))
    ensures var id := RoundId(run.states[j], i);
            && ReadSafety.ConfirmSound(t, id, hs[k]) && hs[k].elections[t].leader == i
            && hs[k].rounds[(t, id)].readIndex == CommitOf(run.states[j], i)
            && hs[j].elections.Keys <= hs[k].rounds[(t, id)].elected
  {
    hide Possible, Do, Tracks, Grown, RoundDone, ReadIndex.Echo;
    RequestRecorded(run, hs, strict, j, i, t);
    HistoryGrows(strict, run, hs, j + 1, k);
    DoneIsConfirmed(run, hs, strict, j, k, i, t);
    LeaderKnown(strict, run.states[k], hs[k], i);
    ConfirmedOf(strict, run.states[k], hs[k]);
  }

  lemma ConfirmedOf(strict: bool, c: ClusterState, h: History)
    requires Tracks(strict, c, h)
    ensures ReadSafety.ConfirmsSound(h)
  {
    hide ElectionInv, LogMatching.LogInv, Completeness.HeldInv, ReadIndex.ReadInv, ReadSafety.MarkInv;
    hide ReadSafety.ConfirmsSound, CommitSafety.CommitInv, ReadSafety.MarksHeld, ClusterOk, AllApplied;
  }

  lemma ElectedBy(run: Run, hs: seq<History>, strict: bool, l: nat, j: nat, b: NodeId, u: Term)
    requires IsRun(run) && Witness(strict, run, hs) && l <= j < |hs| && IsLeader(run.states[l], b, u)
    ensures u in hs[j].elections
  {
    hide Possible, Do, Tracks, RoundsKnown, Grown;
    LeaderKnown(strict, run.states[l], hs[l], b);
    HistoryGrows(strict, run, hs, l, j);
  }

  lemma EchoIsRequest(run: Run, hs: seq<History>, strict: bool, j: nat, k: nat, i: NodeId, t: Term)
    requires IsRun(run) && Witness(strict, run, hs) && Requested(run, j, i, t) && j < k < |hs|
    requires ReadIndex.Echo(i, t, RoundId(run.states[j], i), CommitOf(run.states[j], i), hs[k])
    ensures NumberedBefore(run, j, i, t)
  {
    hide Possible, Do, Tracks, Grown, Witness;
    var id, r := RoundId(run.states[j], i), CommitOf(run.states[j], i);
    var w: Term :| w < t && ReadIndex.Numbered(i, w, id, r, hs[k]);
    RoundsHad(run, hs, strict, k, i, w, id);
    var j': nat :| j' < k && Requested(run, j', i, w) && RoundId(run.states[j'], i) == id
                   && CommitOf(run.states[j'], i) == r;
    if j <= j' {
      TermsOnlyRise(run, j, j', i);
    }
    assert RoundHad(run, j, i, w, id, r);
  }

  /** In honest runs, once a leader has confirmed a read round: when the round was requested
      no later term had a leader, and no server had ever committed past the round's index. */
  lemma ReadIndexSound(run: Run, j: nat, k: nat, i: NodeId, t: Term, l: nat, b: NodeId)
    requires IsRun(run) && HonestRun(run) && Requested(run, j, i, t)
    requires j < k < |run.states| && IsLeader(run.states[k], i, t)
    requires RoundDone(run.states[k], i, RoundId(run.states[j], i))
    requires l <= j && b in run.states[l].machines
    ensures CommitOf(run.states[l], b) <= CommitOf(run.states[j], i)
    ensures run.states[l].machines[b].node.role.Leader? ==> TermOf(run.states[l], b) <= t
  {
    hide Do, Tracks, Extends, HonestRun, RoundsKnown, ReadSafety.Covered, RoundDone, Grown;
    var hs := RunWitness(true, run);
    NoLaterLeader(run, hs, j, k, i, t);
    HistoryGrows(true, run, hs, l, j);
    if run.states[l].machines[b].node.role.Leader? {
      ElectedBy(run, hs, true, l, j, b, TermOf(run.states[l], b));
    }
    ReadCovers(run.states[l], hs[l], run.states[j], hs[j], i, b);
  }

  lemma NoLaterLeader(run: Run, hs: seq<History>, j: nat, k: nat, i: NodeId, t: Term)
    requires IsRun(run) && Witness(true, run, hs) && Requested(run, j, i, t)
    requires j < k < |hs| && IsLeader(run.states[k], i, t)
    requires RoundDone(run.states[k], i, RoundId(run.states[j], i))
    ensures forall u :: u in hs[j].elections ==> u <= t
  {
    hide Possible, Do, Tracks, Extends, Grown, RoundDone, CommitSafety.Sound, CommitSafety.RoundsSafe,
        ReadSafety.ConfirmSound;
    ConfirmedRound(run, hs, true, j, k, i, t);
    var id := RoundId(run.states[j], i);
    StrictOf(run.states[k], hs[k], i);
    ConfirmInRounds(t, id, hs[k]);
    forall u | u in hs[j].elections ensures u <= t {
      ReadSafety.ConfirmedWithoutEcho(run.states[k].voters, hs[k], t, id, u);
    }
  }

  lemma ConfirmInRounds(t: Term, id: nat, h: History)
    requires ReadSafety.ConfirmSound(t, id, h)
    ensures (t, id) in h.rounds
  {
  }

  lemma StrictOf(c: ClusterState, h: History, i: NodeId)
    requires Tracks(true, c, h) && i in c.machines
    ensures CommitSafety.Sound(c.voters, h) && CommitSafety.RoundsSafe(c.voters, h)
  {
    AppliedKnown(c, h, i);
    hide ElectionInv, LogMatching.LogInv, Completeness.HeldInv, ReadIndex.ReadInv, ReadSafety.MarkInv,
        CommitSafety.Sound;
    hide ReadSafety.ConfirmsSound, ReadSafety.MarksHeld, ClusterOk, AllApplied, CommitSafety.RoundsSafe;
  }

  /** When no later term has had a leader, no commit index passes that of a leader that has
      committed an entry of its own term. */
  lemma ReadCovers(c: ClusterState, h: History, c': ClusterState, h': History, i: NodeId, b: NodeId)
    requires b in c.machines && i in c'.machines && IsLeader(c', i, TermOf(c', i)) && Possible(c', i, ReadStep)
    requires Tracks(true, c, h) && Tracks(true, c', h') && Extends(h, h') && c.voters == c'.voters
    requires forall u :: u in h'.elections ==> u <= TermOf(c', i)
    ensures CommitOf(c, b) <= CommitOf(c', i)
  {
    hide Tracks, Possible, CommitSafety.Sound, CommitSafety.Committed, P.LogHasTerm, RoundsKnown,
        Completeness.HeldByMajority;
    var t := TermOf(c', i);
    LeaderKnown(true, c', h', i);
    ReadHasTerm(true, c', h', i);
    AppliedKnown(c', h', i);
    MarksOf(c, h, b);
    var n := CommitOf(c, b);
    if n > 0 {
      var t' :| t' <= TermOf(c, b) && t' in h.marks && n <= h.marks[t'];
      if t' != t {
        CommitSafety.MajorityGrows(c.voters, h, h', t', h.marks[t']);
        if CommitOf(c', i) < n {
          assert CommitSafety.Safe(c.voters, h', t', CommitOf(c', i));
          CommitSafety.OlderReadBelow(c.voters, h', t', t, CommitOf(c', i));
        }
      }
    }
  }

  lemma ReadHasTerm(strict: bool, c: ClusterState, h: History, i: NodeId)
    requires Possible(c, i, ReadStep) && Tracks(strict, c, h)
    ensures P.LogHasTerm(LogOf(c, i), CommitOf(c, i), TermOf(c, i)) && CommitOf(c, i) > 0
  {
    hide Inv, CaughtUp, AllApplied;
    assert MachineOk(c.voters, i, c.machines[i]);
    CommittedInTermMeans(c.machines[i].node.core, CommitOf(c, i));
  }

  lemma MarksOf(c: ClusterState, h: History, i: NodeId)
    requires Tracks(true, c, h) && i in c.machines
    ensures ReadSafety.Covered(h, TermOf(c, i), CommitOf(c, i))
    ensures ReadSafety.MarksHeld(c.voters, h)
    ensures h.marks.Keys <= h.elections.Keys
  {
    ServerFacts(true, c, h, i);
    TermsElectedOf(true, c, h);
    hide ElectionsBacked, LogMatching.LogInv, ElectionInv, ReadSafety.Covered;
  }

  // ----- What it means that a read is ready -----

  /** What the history says of a leader's confirmed index. */
  lemma ConfirmedIndex(strict: bool, c: ClusterState, h: History, i: NodeId)
    requires Tracks(strict, c, h) && i in c.machines && c.machines[i].node.role.Leader?
    ensures ReadIndex.ConfirmedOk(Abs(c).servers[i], h)
    ensures h.confirmed <= h.rounds.Keys
  {
    hide ElectionInv, LogMatching.LogInv, Completeness.HeldInv, ReadSafety.MarkInv, ReadSafety.ConfirmsSound;
    hide CommitSafety.CommitInv, ReadSafety.MarksHeld, ClusterOk, AllApplied;
    hide ReadIndex.PendingOk, ReadIndex.ReadMessageOk, ReadIndex.ConfirmedOk;
    assert i in Abs(c).servers;
  }

  /** In every run: when a read at index `n` is ready, its leader has in this term requested
      a round at an index no lower, and that round has been confirmed. */
  lemma ReadReadyMeans(run: Run, k: nat, i: NodeId, t: Term, n: LogIndex) returns (j: nat)
    requires IsRun(run) && k < |run.states| && IsLeader(run.states[k], i, t)
    requires n > 0 && ReadReady(run.states[k].machines[i].node, n)
    ensures j < k && Requested(run, j, i, t)
    ensures n <= CommitOf(run.states[j], i) <= CommitOf(run.states[k], i)
    ensures RoundDone(run.states[k], i, RoundId(run.states[j], i))
  {
    hide Possible, Do, Tracks, Extends, Grown, RoundsKnown, RoundDone;
    var hs := RunWitness(false, run);
    var c, h := run.states[k], hs[k];
    ConfirmedIndex(false, c, h, i);
    LeaderKnown(false, c, h, i);
    var r := LeaderOf(c, i).confirmedRead;
    var id :| (t, id) in h.confirmed && ReadIndex.ConfirmedAt(t, id, h) == r;
    RoundsHad(run, hs, false, k, i, t, id);
    j :| j < k && Requested(run, j, i, t) && RoundId(run.states[j], i) == id && CommitOf(run.states[j], i) == r;
    DoneIsConfirmed(run, hs, false, j, k, i, t);
    LeadsBetween(run, hs, false, j, j, k, i, t);
  }

  /** The leader had, earlier in the term, requested a round at the same commit index. */
  ghost predicate AskedBefore(run: Run, j: nat, i: NodeId, t: Term)
    requires IsRun(run) && Requested(run, j, i, t)
  {
    exists j': nat :: j' < j && Requested(run, j', i, t) && CommitOf(run.states[j'], i) == CommitOf(run.states[j], i)
  }

  /** In every run: a read is ready exactly when its round has been confirmed or its leader
      had requested a round at the same commit index before. */
  lemma ReadReadyIff(run: Run, j: nat, k: nat, i: NodeId, t: Term)
    requires IsRun(run) && Requested(run, j, i, t)
    requires j < k < |run.states| && IsLeader(run.states[k], i, t)
    ensures ReadReady(run.states[k].machines[i].node, CommitOf(run.states[j], i)) <==>
              RoundDone(run.states[k], i, RoundId(run.states[j], i)) || AskedBefore(run, j, i, t)
  {
    hide Do, Tracks, Extends, Grown, RoundsKnown, RoundDone, AskedBefore, Possible;
    var hs := RunWitness(false, run);
    if ReadReady(run.states[k].machines[i].node, CommitOf(run.states[j], i)) {
      ReadIsAsked(run, hs, j, k, i, t);
    }
    if RoundDone(run.states[k], i, RoundId(run.states[j], i)) {
      DoneIsConfirmed(run, hs, false, j, k, i, t);
      ConfirmedIsReady(run, hs, j, k, i, t);
    }
    if AskedBefore(run, j, i, t) {
      AskedIsReady(run, hs, j, k, i, t);
    }
  }

  lemma ReadIsAsked(run: Run, hs: seq<History>, j: nat, k: nat, i: NodeId, t: Term)
    requires IsRun(run) && Witness(false, run, hs) && |hs| == |run.states| && Requested(run, j, i, t)
    requires j < k < |run.states| && IsLeader(run.states[k], i, t)
    requires ReadReady(run.states[k].machines[i].node, CommitOf(run.states[j], i))
    ensures RoundDone(run.states[k], i, RoundId(run.states[j], i)) || AskedBefore(run, j, i, t)
  {
    hide Do, Tracks, Extends, Grown, RoundDone, ReadReady, Witness, Possible;
    assert Possible(run.states[j], i, ReadStep);
    HeldWitness(run, hs, j);
    ReadHasTerm(false, run.states[j], hs[j], i);
    var j' := ReadReadyMeans(run, k, i, t, CommitOf(run.states[j], i));
    if j' < j {
      LeadsBetween(run, hs, false, j', j', j, i, t);
      assert CommitOf(run.states[j'], i) == CommitOf(run.states[j], i);
    } else if j < j' {
      EarlierDone(run, hs, false, j, j', i, t);
      HistoryGrows(false, run, hs, j', k);
      StillConfirmed(hs[j'], hs[k], t, RoundId(run.states[j], i));
      DoneIsConfirmed(run, hs, false, j, k, i, t);
    }
  }

  lemma HeldWitness(run: Run, hs: seq<History>, k: nat)
    requires IsRun(run) && Witness(false, run, hs) && k < |hs|
    ensures Tracks(false, run.states[k], hs[k])
  {
    hide Possible, Do, Tracks, Extends, Grown;
  }

  lemma StillConfirmed(h: History, h': History, t: Term, id: nat)
    requires Extends(h, h') && (t, id) in h.confirmed
    ensures (t, id) in h'.confirmed
  {
  }

  /** A confirmed round makes its index ready. */
  lemma ConfirmedIsReady(run: Run, hs: seq<History>, j: nat, k: nat, i: NodeId, t: Term)
    requires IsRun(run) && Witness(false, run, hs) && Requested(run, j, i, t)
    requires j < k < |hs| && IsLeader(run.states[k], i, t)
    requires (t, RoundId(run.states[j], i)) in hs[k].confirmed
    ensures ReadReady(run.states[k].machines[i].node, CommitOf(run.states[j], i))
  {
    hide Possible, Do, Tracks, Extends, Grown, RoundsKnown;
    var id := RoundId(run.states[j], i);
    RequestRecorded(run, hs, false, j, i, t);
    HistoryGrows(false, run, hs, j + 1, k);
    RoundStays(hs[j + 1], hs[k], t, id);
    ConfirmedIndex(false, run.states[k], hs[k], i);
    assert ReadIndex.ConfirmedAt(t, id, hs[k]) == CommitOf(run.states[j], i);
    LeadsBetween(run, hs, false, j, j, k, i, t);
    ClusterOkOf(false, run.states[k], hs[k]);
  }

  lemma RoundStays(h: History, h': History, t: Term, id: nat)
    requires Extends(h, h') && (t, id) in h.rounds
    ensures (t, id) in h'.rounds && h'.rounds[(t, id)] == h.rounds[(t, id)]
  {
  }

  lemma AskedIsReady(run: Run, hs: seq<History>, j: nat, k: nat, i: NodeId, t: Term)
    requires IsRun(run) && Witness(false, run, hs) && Requested(run, j, i, t)
    requires j < k < |hs| && IsLeader(run.states[k], i, t) && AskedBefore(run, j, i, t)
    ensures ReadReady(run.states[k].machines[i].node, CommitOf(run.states[j], i))
  {
    hide Possible, Do, Tracks, Extends, Grown, ReadReady, Witness;
    var j': nat :| j' < j && Requested(run, j', i, t) && CommitOf(run.states[j'], i) == CommitOf(run.states[j], i);
    EarlierDone(run, hs, false, j', j, i, t);
    HistoryGrows(false, run, hs, j, k);
    StillConfirmed(hs[j], hs[k], t, RoundId(run.states[j'], i));
    ConfirmedIsReady(run, hs, j', k, i, t);
  }

  /** In honest runs a read that is ready covers every commit made before a request of its
      leader at its index: its own, or else an earlier one. */
  lemma ReadyCovers(run: Run, j: nat, k: nat, i: NodeId, t: Term) returns (j': nat)
    requires IsRun(run) && HonestRun(run) && Requested(run, j, i, t)
    requires j < k < |run.states| && IsLeader(run.states[k], i, t)
    requires ReadReady(run.states[k].machines[i].node, CommitOf(run.states[j], i))
    ensures j' <= j && Requested(run, j', i, t) && CommitOf(run.states[j'], i) == CommitOf(run.states[j], i)
    ensures RoundDone(run.states[k], i, RoundId(run.states[j], i)) ==> j' == j
    ensures forall l: nat, b :: l <= j' && b in run.states[l].machines ==>
              CommitOf(run.states[l], b) <= CommitOf(run.states[j], i)
  {
    hide Do, Possible, HonestRun, RoundDone, ReadReady;
    ReadReadyIff(run, j, k, i, t);
    if RoundDone(run.states[k], i, RoundId(run.states[j], i)) {
      j' := j;
    } else {
      j' :| j' < j && Requested(run, j', i, t) && CommitOf(run.states[j'], i) == CommitOf(run.states[j], i);
      EarlierIsDone(run, j', j, k, i, t);
    }
    forall l: nat, b | l <= j' && b in run.states[l].machines
      ensures CommitOf(run.states[l], b) <= CommitOf(run.states[j], i)
    {
      ReadIndexSound(run, j', k, i, t, l, b);
    }
  }

  lemma EarlierIsDone(run: Run, j: nat, j': nat, k: nat, i: NodeId, t: Term)
    requires IsRun(run) && Requested(run, j, i, t) && Requested(run, j', i, t)
    requires j < j' < k < |run.states| && IsLeader(run.states[k], i, t)
    ensures RoundDone(run.states[k], i, RoundId(run.states[j], i))
  {
    hide Do, Tracks, Possible, RoundDone, Witness, Extends;
    var hs := RunWitness(false, run);
    EarlierDone(run, hs, false, j, j', i, t);
    HistoryGrows(false, run, hs, j', k);
    StillConfirmed(hs[j'], hs[k], t, RoundId(run.states[j], i));
    DoneIsConfirmed(run, hs, false, j, k, i, t);
  }
}
