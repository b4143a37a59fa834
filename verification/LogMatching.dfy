/** Log Matching: every log anywhere agrees, through each of its entries, with the log of
    the leader of that entry's term. */
module LogMatching {
  import opened Types
  import opened RaftLog
  import opened Event
  import opened Protocol
  import opened History

  /** Entries are numbered from 1, carry commands, and no term exceeds `bound`. */
  ghost predicate WellFormed(log: seq<Entry>, bound: Term) {
    forall k :: 0 <= k < |log| ==>
      1 <= log[k].term <= bound && log[k].index == k + 1 && log[k].payload.Command?
  }

  ghost predicate Conforms(log: seq<Entry>, h: History) {
    forall k :: 0 <= k < |log| ==>
      log[k].term in h.logs && log[..k + 1] <= h.logs[log[k].term]
  }

  /** Two conforming logs with the same term at an index are identical through it. */
  lemma Match(a: seq<Entry>, b: seq<Entry>, h: History, k: nat)
    requires Conforms(a, h) && Conforms(b, h)
    requires k < |a| && k < |b| && a[k].term == b[k].term
    ensures a[..k + 1] == b[..k + 1]
  {
    var leader := h.logs[a[k].term];
    assert a[..k + 1] <= leader && b[..k + 1] <= leader;
  }

  /** Terms never decrease along a conforming log. */
  lemma TermsAscend(log: seq<Entry>, h: History, j: nat, k: nat)
    requires Conforms(log, h) && LeaderLogsOk(h)
    requires j <= k < |log|
    ensures log[j].term <= log[k].term
  {
    var t := log[k].term;
    assert log[..k + 1] <= h.logs[t];
    assert log[..k + 1][j] == h.logs[t][j];
    assert WellFormed(h.logs[t], t);
  }

  lemma ConformsGrows(log: seq<Entry>, h: History, h': History)
    requires Conforms(log, h) && Extends(h, h')
    ensures Conforms(log, h')
  {
  }

  lemma PrefixOk(log: seq<Entry>, n: nat, h: History, bound: Term)
    requires Conforms(log, h) && WellFormed(log, bound) && n <= |log|
    ensures Conforms(log[..n], h) && WellFormed(log[..n], bound)
  {
    var cut := log[..n];
    forall k | 0 <= k < |cut| ensures cut[k].term in h.logs && cut[..k + 1] <= h.logs[cut[k].term] {
      assert cut[k] == log[k] && cut[..k + 1] == log[..k + 1];
    }
  }

  // ----- The invariant -----

  ghost predicate ServerLogOk(sv: Server, h: History) {
    WellFormed(sv.log, sv.term) && Conforms(sv.log, h)
  }

  ghost predicate CampaignLogsOk(h: History) {
    forall k :: k in h.campaigns ==>
      && k.1 > 0
      && WellFormed(h.campaigns[k], k.1 - 1)
      && Conforms(h.campaigns[k], h)
  }

  ghost predicate VotedLogsOk(h: History) {
    forall k :: k in h.voted ==> WellFormed(h.voted[k].log, k.1) && Conforms(h.voted[k].log, h)
  }

  /** A leader's log is what it campaigned with, followed by entries of its own term. */
  ghost predicate LeaderLogOk(t: Term, h: History)
    requires t in h.logs
  {
    && WellFormed(h.logs[t], t)
    && Conforms(h.logs[t], h)
    && t in h.elections
    && (h.elections[t].leader, t) in h.campaigns
    && var base := h.campaigns[(h.elections[t].leader, t)];
    && base <= h.logs[t]
    && forall k :: |base| <= k < |h.logs[t]| ==> h.logs[t][k].term == t
  }

  ghost predicate LeaderLogsOk(h: History) {
    forall t :: t in h.logs ==> LeaderLogOk(t, h)
  }

  /** An append request of term `t` describes a stretch of that term's leader log. */
  ghost predicate AppendMessageOk(m: Message, h: History) {
    m.body.AppendRequest? ==>
      var b := m.body;
      && m.term in h.logs
      && (b.prevLogTerm > 0 ==> TermAt(h.logs[m.term], b.prevLogIndex) == b.prevLogTerm)
      && (b.entries != [] ==>
            && b.prevLogTerm == TermAt(h.logs[m.term], b.prevLogIndex)
            && b.prevLogIndex + |b.entries| <= |h.logs[m.term]|
            && b.entries == h.logs[m.term][b.prevLogIndex..b.prevLogIndex + |b.entries|])
  }

  ghost predicate LogInv(s: State, h: History) {
    && (forall i :: i in s.servers ==> ServerLogOk(s.servers[i], h))
    && (forall m :: m in s.net ==> AppendMessageOk(m, h))
    && CampaignLogsOk(h)
    && VotedLogsOk(h)
    && LeaderLogsOk(h)
  }

  // ----- Accepting entries -----

  /** Merging a stretch of a matching log gives either the old log, which already held the
      stretch, or exactly the other log up to the end of the stretch. */
  lemma MergeMatches(log: seq<Entry>, leader: seq<Entry>, prev: nat, entries: seq<Entry>, h: History)
    requires Conforms(log, h) && Conforms(leader, h)
    requires prev <= |log| && log[..prev] <= leader
    requires prev + |entries| <= |leader| && entries == leader[prev..prev + |entries|]
    ensures var merged := MergeAt(log, prev, entries);
            && leader[..prev + |entries|] <= merged
            && (merged == log || merged == leader[..prev + |entries|])
            && (leader[..prev + |entries|] <= log ==> merged == log)
  {
    MergeShape(log, prev, entries);
    var c := Agreeing(log, prev, entries, 0);
    if c > 0 {
      assert entries[c - 1] == leader[prev + c - 1];
      Match(log, leader, h, prev + c - 1);
    }
    assert log[..prev + c] == leader[..prev + c];
    if c < |entries| {
      assert entries[c] == leader[prev + c];
      assert log[..prev + c] + entries[c..] == leader[..prev + |entries|];
    } else {
      assert leader[..prev + |entries|] <= log;
    }
  }

  /** The consistency check makes the prefix through `prev` the leader's. */
  lemma PrevChecked(log: seq<Entry>, m: Message, h: History)
    requires m.body.AppendRequest? && AppendMessageOk(m, h)
    requires Conforms(log, h) && LeaderLogsOk(h)
    requires m.body.prevLogIndex == 0 || TermAt(log, m.body.prevLogIndex) == m.body.prevLogTerm
    requires m.body.entries != [] || m.body.prevLogTerm > 0
    ensures m.body.prevLogIndex <= |log|
    ensures log[..m.body.prevLogIndex] <= h.logs[m.term]
  {
    var p, leader := m.body.prevLogIndex, h.logs[m.term];
    assert LeaderLogOk(m.term, h);
    if p > 0 {
      assert TermAt(leader, p) == m.body.prevLogTerm;
      assert p <= |leader| && leader[p - 1].term >= 1;
      assert TermAt(log, p) >= 1 && p <= |log|;
      Match(log, leader, h, p - 1);
    }
  }

  lemma AcceptMatches(log: seq<Entry>, m: Message, h: History)
    requires m.body.AppendRequest? && AppendMessageOk(m, h)
    requires Conforms(log, h) && LeaderLogsOk(h)
    requires m.body.prevLogIndex == 0 || TermAt(log, m.body.prevLogIndex) == m.body.prevLogTerm
    ensures var merged := MergeAt(log, m.body.prevLogIndex, m.body.entries);
            var end := m.body.prevLogIndex + |m.body.entries|;
            || merged == log
            || (&& m.body.entries != [] && end <= |h.logs[m.term]|
                && merged == h.logs[m.term][..end]
                && !(h.logs[m.term][..end] <= log))
  {
    if m.body.entries != [] {
      PrevChecked(log, m, h);
      assert LeaderLogOk(m.term, h);
      MergeMatches(log, h.logs[m.term], m.body.prevLogIndex, m.body.entries, h);
    }
  }

  // ----- The invariant is kept -----

  lemma AcceptLogOk(sv: Server, m: Message, log': seq<Entry>, h: History)
    requires m.body.AppendRequest? && AppendMessageOk(m, h) && m.term == sv.term
    requires ServerLogOk(sv, h) && LeaderLogsOk(h)
    requires m.body.prevLogIndex == 0 || TermAt(sv.log, m.body.prevLogIndex) == m.body.prevLogTerm
    requires log' == MergeAt(sv.log, m.body.prevLogIndex, m.body.entries)
    ensures WellFormed(log', sv.term) && Conforms(log', h)
  {
    AcceptMatches(sv.log, m, h);
    hide MergeAt;
    if log' != sv.log {
      assert LeaderLogOk(sv.term, h);
      PrefixOk(h.logs[sv.term], m.body.prevLogIndex + |m.body.entries|, h, sv.term);
    }
  }

  lemma SelfLogOk(voters: set<NodeId>, net: set<Message>, i: NodeId, sv: Server, a: Action, h: History)
    requires Can(voters, net, i, sv, a)
    requires PhaseOk(i, sv, h) && ServerLogOk(sv, h) && LeaderLogsOk(h) && CampaignLogsOk(h)
    requires a.Accept? ==> AppendMessageOk(a.m, h)
    requires Extends(h, Record(h, i, sv, a))
    ensures ServerLogOk(Effect(i, sv, a).0, Record(h, i, sv, a))
  {
    hide PhaseOk, MergeAt, CampaignLogsOk, LeaderLogsOk, AppendMessageOk, Conforms, Extends, TermAt;
    var sv', h' := Effect(i, sv, a).0, Record(h, i, sv, a);
    if a.Accept? {
      AcceptLogOk(sv, a.m, sv'.log, h);
      ConformsGrows(sv'.log, h, h');
    } else {
      ConformsGrows(sv.log, h, h');
      if a.Propose? {
        LeaderTermPositive(i, sv, h);
        ProposeConforms(sv.log, sv'.log, sv.term, h');
      }
    }
  }

  lemma LeaderTermPositive(i: NodeId, sv: Server, h: History)
    requires sv.phase.Leading? && PhaseOk(i, sv, h) && LeaderLogsOk(h) && CampaignLogsOk(h)
    ensures sv.term > 0
  {
    assert LeaderLogOk(sv.term, h);
  }

  lemma ProposeConforms(log: seq<Entry>, log': seq<Entry>, term: Term, h': History)
    requires Conforms(log, h') && |log'| == |log| + 1 && log == log'[..|log|] && log'[|log|].term == term
    requires term in h'.logs && h'.logs[term] == log'
    ensures Conforms(log', h')
  {
    forall k | 0 <= k < |log'| ensures log'[k].term in h'.logs && log'[..k + 1] <= h'.logs[log'[k].term] {
      if k < |log| {
        assert log'[k] == log[k] && log'[..k + 1] == log[..k + 1];
      }
    }
  }

  lemma CampaignLogsStep(i: NodeId, sv: Server, a: Action, h: History)
    requires Fits(sv, a) && CampaignLogsOk(h) && ServerLogOk(sv, h)
    requires Extends(h, Record(h, i, sv, a))
    ensures CampaignLogsOk(Record(h, i, sv, a))
  {
    hide Conforms;
    var h' := Record(h, i, sv, a);
    forall k | k in h'.campaigns
      ensures k.1 > 0 && WellFormed(h'.campaigns[k], k.1 - 1) && Conforms(h'.campaigns[k], h')
    {
      ConformsGrows(h'.campaigns[k], h, h');
    }
  }

  lemma VotedLogsStep(i: NodeId, sv: Server, a: Action, h: History)
    requires Fits(sv, a) && VotedLogsOk(h) && ServerLogOk(sv, h)
    requires Extends(h, Record(h, i, sv, a))
    ensures VotedLogsOk(Record(h, i, sv, a))
  {
    hide Conforms;
    var h' := Record(h, i, sv, a);
    forall k | k in h'.voted
      ensures WellFormed(h'.voted[k].log, k.1) && Conforms(h'.voted[k].log, h')
    {
      ConformsGrows(h'.voted[k].log, h, h');
    }
  }

  /** A leader log that did not change stays good. */
  lemma LeaderLogGrows(t: Term, h: History, h': History)
    requires t in h.logs && t in h'.logs && h'.logs[t] == h.logs[t]
    requires LeaderLogOk(t, h) && Extends(h, h')
    ensures LeaderLogOk(t, h')
  {
    hide Conforms;
    ConformsGrows(h.logs[t], h, h');
  }

  lemma WinLogOk(i: NodeId, sv: Server, h: History, h': History)
    requires sv.phase.Campaigning? && PhaseOk(i, sv, h) && CampaignLogsOk(h) && Extends(h, h')
    requires sv.term in h'.elections && h'.elections[sv.term].leader == i
    requires sv.term in h'.logs && h'.logs[sv.term] == sv.log
    ensures LeaderLogOk(sv.term, h')
  {
    hide Conforms;
    ConformsGrows(sv.log, h, h');
  }

  lemma ProposeLogOk(i: NodeId, sv: Server, log': seq<Entry>, h: History, h': History)
    requires sv.phase.Leading? && PhaseOk(i, sv, h) && LeaderLogOk(sv.term, h) && Extends(h, h')
    requires sv.term in h'.logs && h'.logs[sv.term] == log'
    requires WellFormed(log', sv.term) && Conforms(log', h')
    requires |log'| == |sv.log| + 1 && sv.log <= log' && log'[|sv.log|].term == sv.term
    ensures LeaderLogOk(sv.term, h')
  {
    hide Conforms;
  }

  lemma LeaderLogsStep(i: NodeId, sv: Server, a: Action, h: History)
    requires Fits(sv, a)
    requires PhaseOk(i, sv, h) && CampaignLogsOk(h) && LeaderLogsOk(h)
    requires ServerLogOk(Effect(i, sv, a).0, Record(h, i, sv, a))
    requires Extends(h, Record(h, i, sv, a))
    ensures LeaderLogsOk(Record(h, i, sv, a))
  {
    hide Conforms, CampaignLogsOk, LeaderLogOk, WellFormed, MergeAt;
    var h' := Record(h, i, sv, a);
    forall t | t in h'.logs ensures LeaderLogOk(t, h') {
      if t in h.logs && h'.logs[t] == h.logs[t] {
        LeaderLogGrows(t, h, h');
      } else if a.Win? {
        WinLogOk(i, sv, h, h');
      } else {
        ProposeLogOk(i, sv, Effect(i, sv, a).0.log, h, h');
      }
    }
  }

  lemma AppendMessageGrows(m: Message, h: History, h': History)
    requires AppendMessageOk(m, h) && Extends(h, h')
    ensures AppendMessageOk(m, h')
  {
  }

  lemma AppendMessageOut(voters: set<NodeId>, net: set<Message>, i: NodeId, sv: Server, a: Action, h: History,
                         m: Message)
    requires Can(voters, net, i, sv, a) && PhaseOk(i, sv, h)
    requires m in Effect(i, sv, a).1
    ensures AppendMessageOk(m, Record(h, i, sv, a))
  {
    hide MergeAt;
  }

  lemma LogInvStep(s: State, h: History, i: NodeId, a: Action)
    requires Enabled(s, i, a) && ElectionInv(s, h) && LogInv(s, h)
    requires Extends(h, Record(h, i, s.servers[i], a))
    ensures LogInv(Apply(s, i, a), Record(h, i, s.servers[i], a))
  {
    hide Can, Record, Effect, Extends, ElectionInv, ServerLogOk, PhaseOk, VoteOk, AppendMessageOk, CampaignLogsOk,
        VotedLogsOk, LeaderLogsOk;
    EnabledSelf(s, h, i, a);
    var sv, s', h' := s.servers[i], Apply(s, i, a), Record(h, i, s.servers[i], a);
    Delivered(s, i, a);
    SelfLogOk(s.voters, s.net, i, sv, a, h);
    CampaignLogsStep(i, sv, a, h);
    VotedLogsStep(i, sv, a, h);
    LeaderLogsStep(i, sv, a, h);
    forall j | j in s'.servers ensures ServerLogOk(s'.servers[j], h') {
      if j != i {
        OtherLogOk(s.servers[j], h, h');
      }
    }
    forall m | m in s'.net ensures AppendMessageOk(m, h') {
      if m in s.net {
        AppendMessageGrows(m, h, h');
      } else {
        AppendMessageOut(s.voters, s.net, i, sv, a, h, m);
      }
    }
  }

  lemma OtherLogOk(sv: Server, h: History, h': History)
    requires ServerLogOk(sv, h) && Extends(h, h')
    ensures ServerLogOk(sv, h')
  {
    ConformsGrows(sv.log, h, h');
  }
}
