/** What holds of every run of a cluster with a fixed set of voters: any interleaving of
    ticks, deliveries, proposals, read rounds, leadership transfers and crashes, over a
    network that may lose, repeat and reorder messages. */
module Theorems {
  import opened Types
  import opened RaftLog
  import opened Event
  import opened RaftCore
  import FollowerRole
  import opened Merging
  import opened Refinement
  import opened RefineRoles
  import opened RefineStep
  import opened Cluster
  import opened History
  import opened Invariant
  import opened Safety
  import LogMatching
  import Completeness
  import CommitSafety
  import ReadSafety
  import P = Protocol

  function LogOf(c: ClusterState, i: NodeId): seq<Entry>
    requires i in c.machines
  {
    c.machines[i].node.core.p.log.entries
  }

  function TermOf(c: ClusterState, i: NodeId): Term
    requires i in c.machines
  {
    c.machines[i].node.core.p.term
  }

  function CommitOf(c: ClusterState, i: NodeId): LogIndex
    requires i in c.machines
  {
    c.machines[i].node.core.commitIndex
  }

  /** The server, in its current term, holds an entry of that term at index `n`. */
  predicate HoldsOwn(c: ClusterState, i: NodeId, t: Term, n: LogIndex) {
    i in c.machines && TermOf(c, i) == t && 1 <= n <= |LogOf(c, i)| && LogOf(c, i)[n - 1].term == t
  }

  // ----- Honest runs -----

  /** The step delivers an append request that the server accepts and acknowledges. */
  predicate Acknowledges(c: ClusterState, i: NodeId, step: Step) {
    && i in c.machines && step.DeliverStep?
    && Appends(c.machines[i].node, Receive(step.m, step.recent))
    && FollowerRole.PrevMatches(c.machines[i].node.core.p.log, step.m.body)
  }

  /** A leader of term `t` had all of `log` at some time up to `k`. */
  ghost predicate LeaderHad(run: Run, k: nat, t: Term, log: seq<Entry>)
    requires k < |run.states|
  {
    exists j: nat, b: NodeId :: j <= k && IsLeader(run.states[j], b, t) && log <= LogOf(run.states[j], b)
  }

  /** Every log that was acknowledged is a prefix of its leader's. */
  ghost predicate HonestRun(run: Run)
    requires IsRun(run)
  {
    forall k :: 0 <= k < |run.moves| && Acknowledges(run.states[k], run.moves[k].who, run.moves[k].step) ==>
      HonestMove(run, k)
  }

  ghost predicate HonestMove(run: Run, k: nat)
    requires IsRun(run) && k < |run.moves|
    requires Acknowledges(run.states[k], run.moves[k].who, run.moves[k].step)
  {
    LeaderHad(run, k, run.moves[k].step.m.term, LogOf(run.states[k + 1], run.moves[k].who))
  }

  /** The same as far as a server can tell by itself: every log that was acknowledged ends
      where the request ends, or in an entry of the leader's own term. */
  ghost predicate LocallyHonest(run: Run)
    requires IsRun(run)
  {
    forall k :: 0 <= k < |run.moves| && Acknowledges(run.states[k], run.moves[k].who, run.moves[k].step) ==>
      LocallyHonestMove(run, k)
  }

  ghost predicate LocallyHonestMove(run: Run, k: nat)
    requires IsRun(run) && k < |run.moves|
    requires Acknowledges(run.states[k], run.moves[k].who, run.moves[k].step)
  {
    var log, m := LogOf(run.states[k + 1], run.moves[k].who), run.moves[k].step.m;
    |log| == m.body.prevLogIndex + |m.body.entries| || P.LastTerm(log) == m.term
  }

  /** What is acknowledged is the merged log. */
  lemma AcknowledgedLog(c: ClusterState, i: NodeId, step: Step)
    requires Possible(c, i, step) && Acknowledges(c, i, step)
    ensures i in Do(c, i, step).machines
    ensures LogOf(Do(c, i, step), i)
         == FollowerRole.Merge(c.machines[i].node.core.p.log, step.m.body.entries).entries
  {
    hide ApplyCommitted, FollowerRole.Merge, FollowerRole.MergePersists;
    var (node, effects) := NodeStep(c, i, step);
    ApplyOnlyCounts(node.core, c.machines[i].applied);
  }

  // ----- A history for the whole run -----

  /** A history for each of the first states of the run, each growing out of the one before. */
  ghost predicate Witness(strict: bool, run: Run, hs: seq<History>)
    requires IsRun(run)
  {
    && 0 < |hs| <= |run.states| && hs[0] == BLANK
    && (forall k :: 0 <= k < |hs| ==>
          Tracks(strict, run.states[k], hs[k]) && run.states[k].voters == run.states[0].voters)
    && (forall k :: 0 <= k < |hs| - 1 ==> Extends(hs[k], hs[k + 1]) && Grown(run, hs, k))
  }

  /** What a move added to the history belongs to the term its server then leads. */
  ghost predicate Grown(run: Run, hs: seq<History>, k: nat)
    requires IsRun(run) && k < |hs| - 1 < |run.states|
  {
    var i := run.moves[k].who;
    && i in run.states[k].machines && i in run.states[k + 1].machines
    && var sv, sv' := Abs(run.states[k]).servers[i], Abs(run.states[k + 1]).servers[i];
       LedSince(i, sv, sv', hs[k]) && NewOf(sv, sv', hs[k], hs[k + 1])
  }

  lemma RunWitness(strict: bool, run: Run) returns (hs: seq<History>)
    requires IsRun(run) && (strict ==> HonestRun(run))
    ensures Witness(strict, run, hs) && |hs| == |run.states|
  {
    hide Possible, Do, Tracks, Extends, HonestStep, NewOf, LedSince, HonestRun, Abs;
    InitialTracks(strict, run.states[0]);
    hs := [BLANK];
    while |hs| < |run.states|
      invariant Witness(strict, run, hs)
    {
      var n := |hs| - 1;
      if strict {
        HonestHere(run, hs);
      }
      var h := StepTracks(strict, run.states[n], hs[n], run.moves[n].who, run.moves[n].step);
      SameVoters(run.states[n], run.moves[n].who, run.moves[n].step);
      OthersStill(run.states[n], run.moves[n].who, run.moves[n].step, run.moves[n].who);
      ghost var was := hs;
      hs := hs + [h];
      forall k | 0 <= k < |hs| - 1 ensures Extends(hs[k], hs[k + 1]) && Grown(run, hs, k) {
        if k < n {
          assert Grown(run, was, k);
        }
      }
    }
  }

  /** A log that the leader had is a prefix of what the history says the leader has. */
  lemma HonestHere(run: Run, hs: seq<History>)
    requires IsRun(run) && HonestRun(run) && Witness(true, run, hs) && |hs| <= |run.moves|
    ensures var n := |hs| - 1;
            HonestStep(Some(hs[n].logs), run.states[n], run.moves[n].who, run.moves[n].step)
  {
    hide Possible, Do, Tracks, Extends, NewOf, LedSince, FollowerRole.Merge, RoundsKnown;
    var n := |hs| - 1;
    var c, i, step := run.states[n], run.moves[n].who, run.moves[n].step;
    OthersStill(c, i, step, i);
    if Acknowledges(c, i, step) {
      AcknowledgedLog(c, i, step);
      assert HonestMove(run, n);
      var log := LogOf(run.states[n + 1], i);
      var j: nat, b :| j <= n && IsLeader(run.states[j], b, step.m.term) && log <= LogOf(run.states[j], b);
      LeaderKnown(true, run.states[j], hs[j], b);
      HistoryGrows(true, run, hs, j, n);
      LogsGrow(hs[j], hs[n], step.m.term);
      assert log <= hs[n].logs[step.m.term];
    }
  }

  lemma LogsGrow(h: History, h': History, t: Term)
    requires Extends(h, h') && t in h.logs
    ensures t in h'.logs && h.logs[t] <= h'.logs[t]
  {
  }

  lemma SameVoters(c: ClusterState, i: NodeId, step: Step)
    requires Possible(c, i, step)
    ensures Do(c, i, step).voters == c.voters
  {
  }

  lemma {:induction false} HistoryGrows(strict: bool, run: Run, hs: seq<History>, j: nat, k: nat)
    requires IsRun(run) && Witness(strict, run, hs) && j <= k < |hs|
    ensures Extends(hs[j], hs[k])
    decreases k
  {
    hide Tracks, Extends, IsRun, Grown;
    if j == k {
      ExtendsSelf(hs[j]);
    } else {
      HistoryGrows(strict, run, hs, j, k - 1);
      assert Extends(hs[k - 1], hs[k - 1 + 1]);
      ExtendsThen(hs[j], hs[k - 1], hs[k]);
    }
  }

  /** What the invariant says of one server of one state. */
  lemma ServerFacts(strict: bool, c: ClusterState, h: History, i: NodeId)
    requires Tracks(strict, c, h) && i in c.machines
    ensures var sv := View(c.machines[i].node.core, c.machines[i].node.role);
            && PhaseOk(i, sv, h) && LogMatching.ServerLogOk(sv, h) && Completeness.HeldOk(i, sv, h)
            && ReadSafety.Covered(h, sv.term, sv.commit)
    ensures ElectionsBacked(c.voters, h) && VotesJustified(h)
    ensures LogMatching.CampaignLogsOk(h) && LogMatching.VotedLogsOk(h) && LogMatching.LeaderLogsOk(h)
    ensures Completeness.HeldGenuine(h) && Completeness.VotersKept(h)
    ensures MachineOk(c.voters, i, c.machines[i])
  {
    hide PhaseOk, VoteOk, VoteMessagesOk, ElectionsBacked, VotesJustified, MachineOk;
    hide LogMatching.ServerLogOk, LogMatching.AppendMessageOk, LogMatching.CampaignLogsOk, LogMatching.VotedLogsOk,
        LogMatching.LeaderLogsOk;
    hide Completeness.HeldOk, Completeness.HeldGenuine, Completeness.VotersKept, ReadSafety.Covered,
        ReadSafety.MarkMessageOk;
    var s := Abs(c);
    assert i in s.servers && s.servers[i] == View(c.machines[i].node.core, c.machines[i].node.role);
  }

  // ----- Election safety -----

  /** No term ever has two leaders, in the same state or at different times. */
  lemma ElectionSafety(run: Run, j: nat, k: nat, a: NodeId, b: NodeId, t: Term)
    requires IsRun(run) && j < |run.states| && k < |run.states|
    requires IsLeader(run.states[j], a, t) && IsLeader(run.states[k], b, t)
    ensures a == b
  {
    hide Tracks, Possible, Do;
    var hs := RunWitness(false, run);
    var first, last := Min(j, k), Max(j, k);
    HistoryGrows(false, run, hs, first, last);
    LeaderKnown(false, run.states[j], hs[j], a);
    LeaderKnown(false, run.states[k], hs[k], b);
  }

  /** What the history says of a server that leads. */
  ghost predicate Leads(c: ClusterState, h: History, i: NodeId)
    requires i in c.machines && c.machines[i].node.role.Leader?
  {
    var t := TermOf(c, i);
    && t in h.elections && h.elections[t].leader == i
    && t in h.logs && h.logs[t] == LogOf(c, i)
    && (t in h.marks ==> h.marks[t] == CommitOf(c, i))
    && RoundsKnown(t, ViewPhase(c.machines[i].node.role), h)
  }

  lemma LeaderKnown(strict: bool, c: ClusterState, h: History, i: NodeId)
    requires i in c.machines && c.machines[i].node.role.Leader?
    requires Tracks(strict, c, h)
    ensures Leads(c, h, i)
  {
    hide Tracks, RoundsKnown;
    ServerFacts(strict, c, h, i);
  }

  /** The log that the history has for a term is one that its leader had. */
  lemma {:induction false} LogsHad(strict: bool, run: Run, hs: seq<History>, k: nat, t: Term)
    requires IsRun(run) && Witness(strict, run, hs) && k < |hs| && t in hs[k].logs
    ensures LeaderHad(run, k, t, hs[k].logs[t])
    decreases k
  {
    hide Possible, Do, Tracks, Extends, Abs;
    if k > 0 {
      assert Grown(run, hs, k - 1);
      if t in hs[k - 1].logs && hs[k - 1].logs[t] == hs[k].logs[t] {
        LogsHad(strict, run, hs, k - 1, t);
      } else {
        var i := run.moves[k - 1].who;
        LeadsAt(run.states[k], i, t);
        LeaderKnown(strict, run.states[k], hs[k], i);
        assert IsLeader(run.states[k], i, t) && hs[k].logs[t] <= LogOf(run.states[k], i);
      }
    }
  }

  lemma LeadsAt(c: ClusterState, i: NodeId, t: Term)
    requires i in c.machines && P.StillLeads(t, Abs(c).servers[i])
    ensures IsLeader(c, i, t)
  {
  }

  /** What servers can tell by themselves is enough. */
  lemma LocallyHonestIsHonest(run: Run)
    requires IsRun(run) && LocallyHonest(run)
    ensures HonestRun(run)
  {
    hide Possible, Do, Tracks, Extends, Acknowledges, HonestMove, LocallyHonestMove;
    var hs := RunWitness(false, run);
    forall k | 0 <= k < |run.moves| && Acknowledges(run.states[k], run.moves[k].who, run.moves[k].step)
      ensures HonestMove(run, k)
    {
      assert LocallyHonestMove(run, k);
      HonestFromLocal(run, hs, k);
    }
  }

  lemma HonestFromLocal(run: Run, hs: seq<History>, k: nat)
    requires IsRun(run) && Witness(false, run, hs) && k < |hs| && k < |run.moves|
    requires Acknowledges(run.states[k], run.moves[k].who, run.moves[k].step) && LocallyHonestMove(run, k)
    ensures HonestMove(run, k)
  {
    hide Possible, Do, Tracks, Extends, FollowerRole.Merge, P.MergeAt;
    var c, i, step := run.states[k], run.moves[k].who, run.moves[k].step;
    AcknowledgedLog(c, i, step);
    MergedIsLeaders(c, hs[k], i, step);
    LogsHad(false, run, hs, k, step.m.term);
    var j: nat, b :| j <= k && IsLeader(run.states[j], b, step.m.term)
                     && hs[k].logs[step.m.term] <= LogOf(run.states[j], b);
    assert LogOf(run.states[k + 1], i) <= LogOf(run.states[j], b);
  }

  lemma MergedIsLeaders(c: ClusterState, h: History, i: NodeId, step: Step)
    requires Possible(c, i, step) && Acknowledges(c, i, step) && Tracks(false, c, h)
    requires var log := FollowerRole.Merge(c.machines[i].node.core.p.log, step.m.body.entries).entries;
             |log| == step.m.body.prevLogIndex + |step.m.body.entries| || P.LastTerm(log) == step.m.term
    ensures var log := FollowerRole.Merge(c.machines[i].node.core.p.log, step.m.body.entries).entries;
            step.m.term in h.logs && log <= h.logs[step.m.term]
  {
    hide Inv, FollowerRole.Merge, P.MergeAt;
    var core := c.machines[i].node.core;
    assert MachineOk(c.voters, i, c.machines[i]);
    LogFacts(false, c, h, i);
    MachinePlain(c.voters, c.machines[i].node);
    DeliveredMergeable(core.p.log, step.m, h);
    MergedLog(core.p.log, step.m.body);
    PlainQueries(core.p.log);
    CommitSafety.EndsWithLeaderIsTruthful(View(core, Follower(None)).(term := step.m.term), step.m, h);
  }

  // ----- Log matching -----

  /** Two logs of the run, at the same or at different times, that have the same term at an
      index are identical through that index, payloads included. */
  lemma LogsMatch(run: Run, j: nat, k: nat, a: NodeId, b: NodeId, n: LogIndex)
    requires IsRun(run) && j < |run.states| && k < |run.states|
    requires a in run.states[j].machines && b in run.states[k].machines
    requires 1 <= n <= |LogOf(run.states[j], a)| && n <= |LogOf(run.states[k], b)|
    requires LogOf(run.states[j], a)[n - 1].term == LogOf(run.states[k], b)[n - 1].term
    ensures LogOf(run.states[j], a)[..n] == LogOf(run.states[k], b)[..n]
  {
    hide Tracks, Possible, Do, LogMatching.Conforms, Extends;
    var hs := RunWitness(false, run);
    var last := Max(j, k);
    HistoryGrows(false, run, hs, j, last);
    HistoryGrows(false, run, hs, k, last);
    LogKnown(false, run.states[j], hs[j], a);
    LogKnown(false, run.states[k], hs[k], b);
    LogMatching.ConformsGrows(LogOf(run.states[j], a), hs[j], hs[last]);
    LogMatching.ConformsGrows(LogOf(run.states[k], b), hs[k], hs[last]);
    LogMatching.Match(LogOf(run.states[j], a), LogOf(run.states[k], b), hs[last], n - 1);
  }

  lemma LogKnown(strict: bool, c: ClusterState, h: History, i: NodeId)
    requires Tracks(strict, c, h) && i in c.machines
    ensures LogMatching.Conforms(LogOf(c, i), h) && LogMatching.WellFormed(LogOf(c, i), TermOf(c, i))
    ensures LogMatching.LeaderLogsOk(h)
  {
    hide Tracks, LogMatching.Conforms, LogMatching.WellFormed, LogMatching.LeaderLogsOk;
    ServerFacts(strict, c, h, i);
  }

  /** Every log is numbered from 1 and its terms never decrease nor pass the server's own. */
  lemma LogsOrdered(run: Run, k: nat, i: NodeId, m: LogIndex, n: LogIndex)
    requires IsRun(run) && k < |run.states| && i in run.states[k].machines
    requires 1 <= m <= n <= |LogOf(run.states[k], i)|
    ensures LogOf(run.states[k], i)[n - 1].index == n
    ensures 1 <= LogOf(run.states[k], i)[m - 1].term <= LogOf(run.states[k], i)[n - 1].term <= TermOf(run.states[k], i)
  {
    hide Tracks, Possible, Do, LogMatching.Conforms, LogMatching.LeaderLogsOk;
    var hs := RunWitness(false, run);
    LogKnown(false, run.states[k], hs[k], i);
    LogMatching.TermsAscend(LogOf(run.states[k], i), hs[k], m - 1, n - 1);
  }

  /** A leader never removes or rewrites an entry of its own log. */
  lemma LeaderAppendOnly(run: Run, j: nat, k: nat, a: NodeId, t: Term)
    requires IsRun(run) && j <= k < |run.states|
    requires IsLeader(run.states[j], a, t) && IsLeader(run.states[k], a, t)
    ensures LogOf(run.states[j], a) <= LogOf(run.states[k], a)
  {
    hide Tracks, Possible, Do;
    var hs := RunWitness(false, run);
    HistoryGrows(false, run, hs, j, k);
    LeaderKnown(false, run.states[j], hs[j], a);
    LeaderKnown(false, run.states[k], hs[k], a);
  }

  // ----- Terms and the durable copy -----

  lemma {:induction false} TermsOnlyRise(run: Run, j: nat, k: nat, i: NodeId)
    requires IsRun(run) && j <= k < |run.states| && i in run.states[j].machines
    ensures i in run.states[k].machines && TermOf(run.states[j], i) <= TermOf(run.states[k], i)
    decreases k
  {
    hide Tracks, Possible, Do, Extends;
    if j < k {
      TermsOnlyRise(run, j, k - 1, i);
      var hs := RunWitness(false, run);
      var move := run.moves[k - 1];
      assert run.states[k - 1 + 1] == Do(run.states[k - 1], move.who, move.step);
      var _ := StepTracks(false, run.states[k - 1], hs[k - 1], move.who, move.step);
      OthersStill(run.states[k - 1], move.who, move.step, i);
    }
  }

  lemma OthersStill(c: ClusterState, who: NodeId, step: Step, i: NodeId)
    requires Possible(c, who, step)
    ensures who in c.machines && Do(c, who, step).machines.Keys == c.machines.Keys
    ensures i in c.machines && i != who ==> Do(c, who, step).machines[i] == c.machines[i]
  {
    hide NodeStep;
  }

  /** Between events the store holds exactly what is in memory, so a restart loses no term,
      vote or entry. */
  lemma DurableIsMemory(run: Run, k: nat, i: NodeId)
    requires IsRun(run) && k < |run.states| && i in run.states[k].machines
    ensures run.states[k].machines[i].durable == run.states[k].machines[i].node.core.p
  {
    hide Possible, Do, Inv;
    var hs := RunWitness(false, run);
    assert MachineOk(run.states[k].voters, i, run.states[k].machines[i]);
  }

  // ----- Leader completeness -----

  /** A majority of the voters each held, while in term `t`, the entry of term `t` at index
      `n`, at the times given by `when`. */
  ghost predicate Replicated(run: Run, q: set<NodeId>, when: map<NodeId, nat>, t: Term, n: LogIndex)
    requires run.states != []
  {
    && P.Majority(run.states[0].voters, q)
    && forall v :: v in q ==> v in when && when[v] < |run.states| && HoldsOwn(run.states[when[v]], v, t, n)
  }

  /** Then every leader of a later term, whenever it leads, has that entry and everything
      below it, as each of those servers held it. */
  lemma LeaderCompleteness(run: Run, q: set<NodeId>, when: map<NodeId, nat>, t: Term, n: LogIndex, v: NodeId, k: nat,
                           b: NodeId, u: Term)
    requires IsRun(run) && k < |run.states|
    requires Replicated(run, q, when, t, n) && v in q
    requires t < u && IsLeader(run.states[k], b, u)
    ensures LogOf(run.states[when[v]], v)[..n] <= LogOf(run.states[k], b)
  {
    hide Tracks, Possible, Do, Extends, Completeness.Base, P.Majority;
    var hs := RunWitness(false, run);
    var last := |hs| - 1;
    var h := hs[last];
    forall w | w in q ensures HeldAs(run.states[when[w]], h, w, t, n) {
      HistoryGrows(false, run, hs, when[w], last);
      HeldKnown(run.states[when[w]], hs[when[w]], h, w, t, n);
    }
    assert Completeness.AllHeld(q, h, t, n);
    assert HeldAs(run.states[when[v]], h, v, t, n);
    HistoryGrows(false, run, hs, k, last);
    LeaderStarts(run.states[k], hs[k], h, b);
    EndFacts(run, hs);
    Completeness.LeaderHas(run.states[0].voters, h, t, n, u);
  }

  ghost predicate HeldAs(c: ClusterState, h: History, v: NodeId, t: Term, n: LogIndex)
    requires v in c.machines && n <= |LogOf(c, v)|
  {
    (v, t, n) in h.held && t in h.logs && n <= |h.logs[t]| && LogOf(c, v)[..n] == h.logs[t][..n]
  }

  lemma HeldKnown(c: ClusterState, h: History, h': History, v: NodeId, t: Term, n: LogIndex)
    requires HoldsOwn(c, v, t, n) && Tracks(false, c, h) && Extends(h, h')
    ensures HeldAs(c, h', v, t, n)
  {
    hide Tracks, PhaseOk, ElectionsBacked, VotesJustified, LogMatching.CampaignLogsOk, LogMatching.VotedLogsOk,
      LogMatching.LeaderLogsOk, Completeness.HeldGenuine, Completeness.VotersKept, Completeness.Kept, MachineOk,
          ReadSafety.Covered;
    ServerFacts(false, c, h, v);
    var sv := View(c.machines[v].node.core, c.machines[v].node.role);
    assert (v, t, n) in HeldBy(v, sv);
    assert sv.log[..n - 1 + 1] <= h.logs[t];
  }

  /** A leader's log begins with what it campaigned with. */
  lemma LeaderStarts(c: ClusterState, h: History, h': History, b: NodeId)
    requires Tracks(false, c, h) && b in c.machines && c.machines[b].node.role.Leader? && Extends(h, h')
    ensures TermOf(c, b) in h'.elections && Completeness.Base(h', TermOf(c, b)) <= LogOf(c, b)
  {
    ServerFacts(false, c, h, b);
    hide Tracks, VotesJustified, LogMatching.Conforms, LogMatching.WellFormed;
    assert LogMatching.LeaderLogOk(TermOf(c, b), h);
  }

  lemma EndFacts(run: Run, hs: seq<History>)
    requires IsRun(run) && Witness(false, run, hs) && |hs| == |run.states|
    ensures var h := hs[|hs| - 1];
            && ElectionsBacked(run.states[0].voters, h) && VotesJustified(h)
            && LogMatching.CampaignLogsOk(h) && LogMatching.VotedLogsOk(h) && LogMatching.LeaderLogsOk(h)
            && Completeness.HeldGenuine(h) && Completeness.VotersKept(h)
  {
    var c, h := run.states[|hs| - 1], hs[|hs| - 1];
    assert Tracks(false, c, h);
    hide ElectionsBacked, VotesJustified, VoteMessagesOk, VoteOk, PhaseOk, MachineOk;
    hide LogMatching.ServerLogOk, LogMatching.AppendMessageOk, LogMatching.CampaignLogsOk, LogMatching.VotedLogsOk,
        LogMatching.LeaderLogsOk;
    hide Completeness.HeldOk, Completeness.HeldGenuine, Completeness.VotersKept;
  }

  // ----- Committed state -----

  /** In honest runs whatever two servers have fed to their state machines, at whatever
      times, one is a prefix of the other; and each has been fed exactly its committed log. */
  lemma StateMachineSafety(run: Run, j: nat, k: nat, a: NodeId, b: NodeId)
    requires IsRun(run) && HonestRun(run) && j < |run.states| && k < |run.states|
    requires a in run.states[j].machines && b in run.states[k].machines
    ensures var p, q := run.states[j].machines[a].applied, run.states[k].machines[b].applied;
            && (p <= q || q <= p)
            && CommitOf(run.states[j], a) <= |LogOf(run.states[j], a)|
            && p == LogOf(run.states[j], a)[..CommitOf(run.states[j], a)]
  {
    hide Possible, Do, Tracks, Extends, CommitSafety.Committed, CommitSafety.Sound;
    var hs := RunWitness(true, run);
    var last := Max(j, k);
    HistoryGrows(true, run, hs, j, last);
    HistoryGrows(true, run, hs, k, last);
    AppliedKnown(run.states[j], hs[j], a);
    AppliedKnown(run.states[k], hs[k], b);
    var p, q := run.states[j].machines[a].applied, run.states[k].machines[b].applied;
    var voters := run.states[0].voters;
    CommitSafety.CommittedGrows(voters, hs[j], hs[last], p, TermOf(run.states[j], a), TermOf(run.states[j], a));
    CommitSafety.CommittedGrows(voters, hs[k], hs[last], q, TermOf(run.states[k], b), TermOf(run.states[k], b));
    CommitSafety.CommittedAgree(voters, hs[last], p, q, TermOf(run.states[j], a), TermOf(run.states[k], b));
  }

  lemma AppliedKnown(c: ClusterState, h: History, i: NodeId)
    requires Tracks(true, c, h) && i in c.machines
    ensures CommitOf(c, i) <= |LogOf(c, i)| && c.machines[i].applied == LogOf(c, i)[..CommitOf(c, i)]
    ensures CommitSafety.Committed(c.voters, h, c.machines[i].applied, TermOf(c, i))
    ensures CommitSafety.Sound(c.voters, h) && h.logs.Keys == h.elections.Keys
  {
    hide Inv, CommitSafety.Committed, CommitSafety.Sound;
    CommittedOf(Abs(c), h, i);
    assert AppliedOk(c.machines[i]);
  }
}
