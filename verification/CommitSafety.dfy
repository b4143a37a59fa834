/** State Machine Safety at the commit index, in runs whose acknowledgements are truthful.

    A follower acknowledges its whole last index, and a leader counts that as replicated.
    The acknowledgement is truthful when the acknowledged log is a prefix of the leader's:
    no suffix of an older leader is then counted in. */
module CommitSafety {
  import opened Types
  import opened RaftLog
  import opened Event
  import opened Protocol
  import opened History
  import opened LogMatching
  import opened Completeness
  import opened ReadIndex

  /** The accepting step leaves a prefix of the log of its term's leader, if `lead` tells
      those logs. */
  predicate Truthful(lead: Option<LeaderLogs>, sv: Server, a: Action) {
    lead.Some? && a.Accept? && a.m.body.AppendRequest? ==>
      && sv.term in lead.value
      && MergeAt(sv.log, a.m.body.prevLogIndex, a.m.body.entries) <= lead.value[sv.term]
  }

  /** What a server can tell by itself: its log ends where the request ends, or in an entry
      of the leader's own term. */
  predicate EndsWithLeader(sv: Server, m: Message)
    requires m.body.AppendRequest?
  {
    var log := MergeAt(sv.log, m.body.prevLogIndex, m.body.entries);
    |log| == m.body.prevLogIndex + |m.body.entries| || LastTerm(log) == sv.term
  }

  /** A majority held entry `n'` of term `t'` in its own term, with `t' <= t` and `n <= n'`. */
  ghost predicate Safe(voters: set<NodeId>, h: History, t: Term, n: LogIndex) {
    n == 0 || exists t': Term, n': LogIndex :: t' <= t && n <= n' && HeldByMajority(voters, h, t', n')
  }

  /** `p` is a prefix of what such a majority held. */
  ghost predicate Committed(voters: set<NodeId>, h: History, p: seq<Entry>, t: Term) {
    p == [] ||
    exists t': Term, n': LogIndex :: t' <= t && |p| <= n' && HeldByMajority(voters, h, t', n') && Has(p, h, t', |p|)
  }

  /** `v` held, in term `t`, every entry of that term up to `n` of its leader's log. */
  ghost predicate Acked(v: NodeId, t: Term, n: LogIndex, h: History) {
    && t in h.logs && n <= |h.logs[t]|
    && forall k :: 1 <= k <= n && h.logs[t][k - 1].term == t ==> (v, t, k) in h.held
  }

  ghost predicate CommitOk(voters: set<NodeId>, sv: Server, h: History) {
    && sv.commit <= |sv.log|
    && Committed(voters, h, sv.log[..sv.commit], sv.term)
    && (sv.phase.Leading? ==>
          forall v :: v in sv.phase.matched ==> Acked(v, sv.term, sv.phase.matched[v], h))
  }

  ghost predicate CommitMessageOk(voters: set<NodeId>, m: Message, h: History) {
    match m.body
    case AppendRequest(_, _, _, leaderCommit) => Safe(voters, h, m.term, leaderCommit)
    case AppendResponse(success, last) => success ==> Acked(m.from, m.term, last, h)
    case _ => true
  }

  ghost predicate RoundsSafe(voters: set<NodeId>, h: History) {
    forall k :: k in h.rounds ==>
      && k.0 in h.logs
      && Safe(voters, h, k.0, h.rounds[k].readIndex)
      && LogHasTerm(h.logs[k.0], h.rounds[k].readIndex, k.0)
  }

  ghost predicate CommitInv(s: State, h: History) {
    && (forall i :: i in s.servers ==> CommitOk(s.voters, s.servers[i], h))
    && (forall m :: m in s.net ==> CommitMessageOk(s.voters, m, h))
    && RoundsSafe(s.voters, h)
  }

  /** What Leader Completeness needs of a history. */
  ghost predicate Sound(voters: set<NodeId>, h: History) {
    && ElectionsBacked(voters, h) && VotesJustified(h)
    && CampaignLogsOk(h) && VotedLogsOk(h) && LeaderLogsOk(h)
    && HeldGenuine(h) && VotersKept(h)
  }

  // ----- Consequences of Leader Completeness -----

  /** What a majority held is in the leader log of every term from its own on. */
  lemma LaterLogHas(voters: set<NodeId>, h: History, t: Term, n: LogIndex, u: Term)
    requires Sound(voters, h) && HeldByMajority(voters, h, t, n) && t <= u && u in h.elections
    ensures Has(h.logs[u], h, t, n)
  {
    if t < u {
      LeaderHas(voters, h, t, n, u);
      assert LeaderLogOk(u, h);
    } else {
      var v := SharedVoter(voters, h, t, n, u);
      HeldInRange(h, (v, t, n));
    }
  }

  lemma CommittedInLeader(voters: set<NodeId>, h: History, p: seq<Entry>, t: Term, u: Term)
    requires Sound(voters, h) && Committed(voters, h, p, t) && t <= u && u in h.elections
    ensures p <= h.logs[u]
  {
    hide Sound;
    if p != [] {
      var t': Term, n': LogIndex :| t' <= t && |p| <= n' && HeldByMajority(voters, h, t', n') && Has(p, h, t', |p|);
      LaterLogHas(voters, h, t', n', u);
    }
  }

  lemma SafeCommitted(voters: set<NodeId>, h: History, t: Term, n: LogIndex, c: LogIndex)
    requires Sound(voters, h) && Safe(voters, h, t, n) && t in h.elections && c <= n
    requires t in h.logs
    ensures c <= |h.logs[t]| && Committed(voters, h, h.logs[t][..c], t)
  {
    hide Sound;
    if n != 0 {
      var t': Term, n': LogIndex :| t' <= t && n <= n' && HeldByMajority(voters, h, t', n');
      LaterLogHas(voters, h, t', n', t);
      assert Has(h.logs[t][..c], h, t', c);
    }
  }

  lemma CommittedSafe(voters: set<NodeId>, h: History, p: seq<Entry>, t: Term)
    requires Committed(voters, h, p, t)
    ensures Safe(voters, h, t, |p|)
  {
    hide HeldByMajority, Has;
  }

  /** Any two committed prefixes agree as far as both go. */
  lemma CommittedAgree(voters: set<NodeId>, h: History, p: seq<Entry>, q: seq<Entry>, t: Term, u: Term)
    requires Sound(voters, h) && h.logs.Keys == h.elections.Keys
    requires Committed(voters, h, p, t) && Committed(voters, h, q, u)
    ensures p <= q || q <= p
  {
    hide Sound;
    if p != [] && q != [] {
      var t': Term, n': LogIndex :| t' <= t && |p| <= n' && HeldByMajority(voters, h, t', n') && Has(p, h, t', |p|);
      var u': Term, m': LogIndex :| u' <= u && |q| <= m' && HeldByMajority(voters, h, u', m') && Has(q, h, u', |q|);
      var w := if t' < u' then u' else t';
      LaterLogHas(voters, h, t', n', w);
      LaterLogHas(voters, h, u', m', w);
      assert p <= h.logs[w] && q <= h.logs[w];
    }
  }

  // ----- Growth -----

  lemma MajorityGrows(voters: set<NodeId>, h: History, h': History, t: Term, n: LogIndex)
    requires HeldByMajority(voters, h, t, n) && Extends(h, h')
    ensures HeldByMajority(voters, h', t, n)
  {
    var q: set<NodeId> :| Majority(voters, q) && AllHeld(q, h, t, n);
    assert AllHeld(q, h', t, n);
  }

  lemma SafeGrows(voters: set<NodeId>, h: History, h': History, t: Term, n: LogIndex)
    requires Safe(voters, h, t, n) && Extends(h, h')
    ensures Safe(voters, h', t, n)
  {
    hide HeldByMajority, Extends;
    if n != 0 {
      var t': Term, n': LogIndex :| t' <= t && n <= n' && HeldByMajority(voters, h, t', n');
      MajorityGrows(voters, h, h', t', n');
    }
  }

  lemma CommittedGrows(voters: set<NodeId>, h: History, h': History, p: seq<Entry>, t: Term, t2: Term)
    requires Committed(voters, h, p, t) && Extends(h, h') && t <= t2
    ensures Committed(voters, h', p, t2)
  {
    hide HeldByMajority;
    if p != [] {
      var t': Term, n': LogIndex :| t' <= t && |p| <= n' && HeldByMajority(voters, h, t', n') && Has(p, h, t', |p|);
      MajorityGrows(voters, h, h', t', n');
      HasGrows(p, h, h', t', |p|);
    }
  }

  lemma AckedGrows(v: NodeId, t: Term, n: LogIndex, h: History, h': History)
    requires Acked(v, t, n, h) && Extends(h, h')
    ensures Acked(v, t, n, h')
  {
  }

  lemma CommitOkGrows(voters: set<NodeId>, sv: Server, h: History, h': History)
    requires CommitOk(voters, sv, h) && Extends(h, h')
    ensures CommitOk(voters, sv, h')
  {
    hide Committed, Acked, Extends;
    CommittedGrows(voters, h, h', sv.log[..sv.commit], sv.term, sv.term);
    if sv.phase.Leading? {
      forall v | v in sv.phase.matched ensures Acked(v, sv.term, sv.phase.matched[v], h') {
        AckedGrows(v, sv.term, sv.phase.matched[v], h, h');
      }
    }
  }

  lemma CommitMessageGrows(voters: set<NodeId>, m: Message, h: History, h': History)
    requires CommitMessageOk(voters, m, h) && Extends(h, h')
    ensures CommitMessageOk(voters, m, h')
  {
    hide Safe, Acked, Extends;
    if m.body.AppendRequest? {
      SafeGrows(voters, h, h', m.term, m.body.leaderCommit);
    } else if m.body.AppendResponse? && m.body.success {
      AckedGrows(m.from, m.term, m.body.ackLastIndex, h, h');
    }
  }

  // ----- Accepting -----

  /** An acceptance cuts the log only where it differs from the leader's. */
  lemma TruthfulMatches(sv: Server, a: Action, h: History)
    requires a.Accept? && Fits(sv, a) && Truthful(Some(h.logs), sv, a) && a.m.term == sv.term
    requires AppendMessageOk(a.m, h) && ServerLogOk(sv, h) && LeaderLogsOk(h)
    requires a.m.body.prevLogIndex == 0 || TermAt(sv.log, a.m.body.prevLogIndex) == a.m.body.prevLogTerm
    ensures var log := MergeAt(sv.log, a.m.body.prevLogIndex, a.m.body.entries);
            && sv.term in h.logs && log <= h.logs[sv.term]
            && (log <= sv.log ==> log == sv.log)
  {
    assert sv.term in h.logs;
    hide MergeAt, Conforms, LeaderLogsOk, WellFormed, TermAt, AppendMessageOk, ServerLogOk;
    ConformsOf(sv, h);
    AcceptMatches(sv.log, a.m, h);
  }

  /** A log that ends with the request, or in the leader's own term, is the leader's. */
  lemma EndsWithLeaderIsTruthful(sv: Server, m: Message, h: History)
    requires m.body.AppendRequest? && m.term == sv.term && EndsWithLeader(sv, m)
    requires AppendMessageOk(m, h) && ServerLogOk(sv, h) && LeaderLogsOk(h)
    requires m.body.prevLogIndex == 0 || TermAt(sv.log, m.body.prevLogIndex) == m.body.prevLogTerm
    ensures Truthful(Some(h.logs), sv, Accept(m))
  {
    assert sv.term in h.logs;
    hide MergeAt, Conforms, LeaderLogsOk, WellFormed, TermAt, AppendMessageOk, ServerLogOk;
    ConformsOf(sv, h);
    AcceptMatches(sv.log, m, h);
    OwnTermMatches(sv, h);
    var log := MergeAt(sv.log, m.body.prevLogIndex, m.body.entries);
    if log == sv.log && |log| == m.body.prevLogIndex + |m.body.entries| {
      EndsTogether(sv, m, h);
    }
  }

  lemma ConformsOf(sv: Server, h: History)
    requires ServerLogOk(sv, h)
    ensures Conforms(sv.log, h)
  {
  }

  /** A log that a request leaves as it is, and that ends where the request ends, is the
      leader's. */
  lemma EndsTogether(sv: Server, m: Message, h: History)
    requires m.body.AppendRequest? && m.term == sv.term
    requires AppendMessageOk(m, h) && Conforms(sv.log, h) && LeaderLogsOk(h)
    requires m.body.prevLogIndex == 0 || TermAt(sv.log, m.body.prevLogIndex) == m.body.prevLogTerm
    requires |sv.log| == m.body.prevLogIndex + |m.body.entries|
    requires sv.log == MergeAt(sv.log, m.body.prevLogIndex, m.body.entries)
    ensures sv.log <= h.logs[sv.term]
  {
    var b, leader := m.body, h.logs[sv.term];
    if sv.log != [] {
      if b.entries == [] {
        assert 1 <= b.prevLogIndex <= |sv.log| && TermAt(sv.log, b.prevLogIndex) == b.prevLogTerm;
        PositiveAt(sv.log, h, b.prevLogIndex);
      }
      PrevChecked(sv.log, m, h);
      assert LeaderLogOk(sv.term, h);
      hide LeaderLogsOk, WellFormed, TermAt, MergeAt;
      if b.entries != [] {
        MergeMatches(sv.log, leader, b.prevLogIndex, b.entries, h);
      }
    }
  }

  lemma PositiveAt(log: seq<Entry>, h: History, index: LogIndex)
    requires Conforms(log, h) && LeaderLogsOk(h) && 1 <= index <= |log|
    ensures TermAt(log, index) > 0
  {
    var t := log[index - 1].term;
    assert LeaderLogOk(t, h);
    assert log[..index - 1 + 1] <= h.logs[t];
    assert log[..index][index - 1] == h.logs[t][index - 1];
  }

  lemma OwnTermMatches(sv: Server, h: History)
    requires ServerLogOk(sv, h) && sv.term in h.logs
    ensures LastTerm(sv.log) == sv.term ==> sv.log <= h.logs[sv.term]
  {
    if sv.log != [] {
      WholeConforms(sv.log, h);
    }
  }

  lemma AcceptCommitOk(voters: set<NodeId>, i: NodeId, sv: Server, a: Action, h: History)
    requires a.Accept? && Fits(sv, a) && Truthful(Some(h.logs), sv, a) && a.m.term == sv.term
    requires a.m.body.prevLogIndex == 0 || TermAt(sv.log, a.m.body.prevLogIndex) == a.m.body.prevLogTerm
    requires AppendMessageOk(a.m, h) && ServerLogOk(sv, h) && sv.term in h.elections && LeaderLogsOk(h)
    requires Sound(voters, h) && CommitOk(voters, sv, h) && CommitMessageOk(voters, a.m, h)
    ensures CommitOk(voters, Effect(i, sv, a).0, h)
  {
    TruthfulMatches(sv, a, h);
    AcceptEffect(i, sv, a);
    hide Sound, Committed, MergeAt, AppendMessageOk, ServerLogOk, Safe, LeaderLogsOk, Truthful, TermAt, Effect,
        AcceptedCommit;
    var log' := MergeAt(sv.log, a.m.body.prevLogIndex, a.m.body.entries);
    CommittedInLeader(voters, h, sv.log[..sv.commit], sv.term, sv.term);
    AcceptedCommitOk(voters, sv, log', a.m.body.leaderCommit, h);
  }

  lemma AcceptEffect(i: NodeId, sv: Server, a: Action)
    requires a.Accept? && Fits(sv, a)
    ensures var log := MergeAt(sv.log, a.m.body.prevLogIndex, a.m.body.entries);
            Effect(i, sv, a).0 == sv.(log := log, commit := AcceptedCommit(sv, log, a.m.body.leaderCommit))
  {
  }

  lemma AcceptedCommitOk(voters: set<NodeId>, sv: Server, log': seq<Entry>, leaderCommit: LogIndex, h: History)
    requires sv.term in h.elections && sv.term in h.logs && log' <= h.logs[sv.term]
    requires log' <= sv.log ==> log' == sv.log
    requires sv.commit <= |sv.log| && sv.log[..sv.commit] <= h.logs[sv.term]
    requires Committed(voters, h, sv.log[..sv.commit], sv.term)
    requires Sound(voters, h) && Safe(voters, h, sv.term, leaderCommit)
    ensures var commit := AcceptedCommit(sv, log', leaderCommit);
            commit <= |log'| && Committed(voters, h, log'[..commit], sv.term)
  {
    hide Sound, Committed, Safe;
    var commit := AcceptedCommit(sv, log', leaderCommit);
    CommitSurvives(sv.log, log', h.logs[sv.term], sv.commit);
    if commit != sv.commit {
      SafeCommitted(voters, h, sv.term, leaderCommit, commit);
      assert log'[..commit] == h.logs[sv.term][..commit];
    }
  }

  lemma CommitSurvives(log: seq<Entry>, log': seq<Entry>, leader: seq<Entry>, commit: LogIndex)
    requires commit <= |log| && log[..commit] <= leader && log' <= leader
    requires log' <= log ==> log' == log
    ensures commit <= |log'| && log'[..commit] == log[..commit]
  {
    assert |log'| <= commit ==> log' <= log[..commit];
  }

  lemma AcceptAcked(i: NodeId, sv: Server, a: Action, h: History, h': History)
    requires a.Accept? && Fits(sv, a) && Truthful(Some(h.logs), sv, a) && a.m.term == sv.term
    requires a.m.body.prevLogIndex == 0 || TermAt(sv.log, a.m.body.prevLogIndex) == a.m.body.prevLogTerm
    requires AppendMessageOk(a.m, h) && ServerLogOk(sv, h) && LeaderLogsOk(h)
    requires h' == Record(h, i, sv, a)
    ensures Acked(i, sv.term, |Effect(i, sv, a).0.log|, h')
  {
    TruthfulMatches(sv, a, h);
    hide MergeAt;
    var sv' := Effect(i, sv, a).0;
    forall k | 1 <= k <= |sv'.log| && h'.logs[sv.term][k - 1].term == sv.term
      ensures (i, sv.term, k) in h'.held
    {
      assert (i, sv.term, k) in HeldBy(i, sv');
    }
  }

  // ----- Leading -----

  /** A leader has itself held every entry of its term in its log. */
  lemma LeaderAcked(i: NodeId, sv: Server, h: History)
    requires sv.phase.Leading? && PhaseOk(i, sv, h) && HeldBy(i, sv) <= h.held
    ensures Acked(i, sv.term, |sv.log|, h)
  {
    forall k | 1 <= k <= |sv.log| && h.logs[sv.term][k - 1].term == sv.term
      ensures (i, sv.term, k) in h.held
    {
      assert (i, sv.term, k) in HeldBy(i, sv);
    }
  }

  lemma CommitCounted(voters: set<NodeId>, i: NodeId, sv: Server, index: LogIndex, h: History)
    requires sv.phase.Leading? && PhaseOk(i, sv, h) && CommitOk(voters, sv, h)
    requires TermAt(sv.log, index) == sv.term && 1 <= index <= |sv.log|
    requires Majority(voters, HoldersOf(sv.phase.matched, index))
    ensures HeldByMajority(voters, h, sv.term, index)
    ensures Committed(voters, h, sv.log[..index], sv.term)
  {
    hide Committed, Majority;
    var q := HoldersOf(sv.phase.matched, index);
    forall v | v in q ensures (v, sv.term, index) in h.held {
      assert Acked(v, sv.term, sv.phase.matched[v], h);
    }
    assert AllHeld(q, h, sv.term, index);
    assert HeldByMajority(voters, h, sv.term, index);
    OwnPrefixCommitted(voters, sv.log, sv.term, index, h);
  }

  lemma OwnPrefixCommitted(voters: set<NodeId>, log: seq<Entry>, t: Term, n: LogIndex, h: History)
    requires t in h.logs && h.logs[t] == log && n <= |log| && HeldByMajority(voters, h, t, n)
    ensures Committed(voters, h, log[..n], t)
  {
    hide HeldByMajority;
    assert Has(log[..n], h, t, n);
  }

  // ----- The invariant is kept by truthful steps -----

  lemma SelfCommitOk(voters: set<NodeId>, net: set<Message>, i: NodeId, sv: Server, a: Action, h: History)
    requires Can(voters, net, i, sv, a) && Truthful(Some(h.logs), sv, a)
    requires PhaseOk(i, sv, h) && ServerLogOk(sv, h) && Sound(voters, h) && LeaderLogsOk(h)
    requires h.logs.Keys == h.elections.Keys
    requires a.Accept? ==> AppendMessageOk(a.m, h)
    requires a.Accept? || a.Ack? ==> CommitMessageOk(voters, a.m, h)
    requires CommitOk(voters, sv, h)
    requires Extends(h, Record(h, i, sv, a))
    requires PhaseOk(i, Effect(i, sv, a).0, Record(h, i, sv, a))
    requires HeldBy(i, Effect(i, sv, a).0) <= Record(h, i, sv, a).held
    ensures CommitOk(voters, Effect(i, sv, a).0, Record(h, i, sv, a))
  {
    var sv', h' := Effect(i, sv, a).0, Record(h, i, sv, a);
    if a.Accept? {
      assert sv.term in h.elections;
      hide Record, PhaseOk, Effect, CommitOk, Sound, LeaderLogsOk, AppendMessageOk, CommitMessageOk, ServerLogOk,
          Extends, HeldBy;
      AcceptCommitOk(voters, i, sv, a, h);
      CommitOkGrows(voters, sv', h, h');
    } else if a.Commit? {
      hide Record, PhaseOk, Sound, LeaderLogsOk, AppendMessageOk, ServerLogOk, Extends, HeldBy, Committed, Acked;
      CommitCounted(voters, i, sv, a.index, h);
      CommitOkGrows(voters, sv', h, h');
    } else {
      MoveCommitOk(voters, net, i, sv, a, h);
    }
  }

  /** Steps other than accepting and committing touch the commit index only to forget it. */
  lemma MoveCommitOk(voters: set<NodeId>, net: set<Message>, i: NodeId, sv: Server, a: Action, h: History)
    requires Can(voters, net, i, sv, a) && !a.Accept? && !a.Commit?
    requires a.Ack? ==> CommitMessageOk(voters, a.m, h)
    requires CommitOk(voters, sv, h)
    requires Extends(h, Record(h, i, sv, a))
    requires PhaseOk(i, Effect(i, sv, a).0, Record(h, i, sv, a))
    requires HeldBy(i, Effect(i, sv, a).0) <= Record(h, i, sv, a).held
    ensures CommitOk(voters, Effect(i, sv, a).0, Record(h, i, sv, a))
  {
    var sv', h' := Effect(i, sv, a).0, Record(h, i, sv, a);
    CommitKeeps(i, sv, a);
    CommittedGrows(voters, h, h', sv.log[..sv.commit], sv.term, sv'.term);
    if sv'.phase.Leading? {
      LeaderAcked(i, sv', h');
      hide Committed;
      forall v | v in sv'.phase.matched ensures Acked(v, sv'.term, sv'.phase.matched[v], h') {
        if v != i || a.Ack? {
          MatchedFrom(voters, net, i, sv, a, h, v);
        } else if !a.Win? && !a.Propose? {
          AckedGrows(v, sv.term, sv.phase.matched[v], h, h');
        }
      }
    }
  }

  lemma CommitKeeps(i: NodeId, sv: Server, a: Action)
    requires Fits(sv, a) && !a.Accept? && !a.Commit? && sv.commit <= |sv.log|
    requires a.Raise? ==> a.term > sv.term
    ensures var sv' := Effect(i, sv, a).0;
            && sv.term <= sv'.term && sv'.commit <= |sv'.log|
            && (sv'.commit == 0 || sv'.log[..sv'.commit] == sv.log[..sv.commit])
  {
  }

  lemma MatchedFrom(voters: set<NodeId>, net: set<Message>, i: NodeId, sv: Server, a: Action, h: History, v: NodeId)
    requires Can(voters, net, i, sv, a) && !a.Accept? && !a.Commit?
    requires a.Ack? ==> CommitMessageOk(voters, a.m, h)
    requires CommitOk(voters, sv, h)
    requires Extends(h, Record(h, i, sv, a))
    requires var sv' := Effect(i, sv, a).0;
             sv'.phase.Leading? && v in sv'.phase.matched && sv'.term in Record(h, i, sv, a).logs
    requires v != i || a.Ack?
    ensures Acked(v, Effect(i, sv, a).0.term, Effect(i, sv, a).0.phase.matched[v], Record(h, i, sv, a))
  {
    var h' := Record(h, i, sv, a);
    if a.Win? {
    } else if a.Ack? && v == a.m.from {
      AckedGrows(v, sv.term, a.m.body.ackLastIndex, h, h');
    } else {
      assert v in sv.phase.matched && Acked(v, sv.term, sv.phase.matched[v], h);
      AckedGrows(v, sv.term, sv.phase.matched[v], h, h');
    }
  }

  lemma CommitMessageOut(voters: set<NodeId>, net: set<Message>, i: NodeId, sv: Server, a: Action, h: History,
                         m: Message)
    requires Can(voters, net, i, sv, a) && Truthful(Some(h.logs), sv, a)
    requires ServerLogOk(sv, h) && LeaderLogsOk(h)
    requires a.Accept? ==> AppendMessageOk(a.m, h)
    requires CommitOk(voters, sv, h) && Extends(h, Record(h, i, sv, a))
    requires m in Effect(i, sv, a).1
    ensures CommitMessageOk(voters, m, Record(h, i, sv, a))
  {
    var h' := Record(h, i, sv, a);
    if a.Accept? {
      AcceptAcked(i, sv, a, h, h');
    } else if a.Send? {
      CommittedSafe(voters, h, sv.log[..sv.commit], sv.term);
      SafeGrows(voters, h, h', sv.term, sv.commit);
    } else {
      hide Safe, Acked, CommitOk, ServerLogOk, LeaderLogsOk;
    }
  }

  lemma RoundsSafeStep(voters: set<NodeId>, net: set<Message>, i: NodeId, sv: Server, a: Action, h: History)
    requires Can(voters, net, i, sv, a) && PhaseOk(i, sv, h)
    requires CommitOk(voters, sv, h) && RoundsSafe(voters, h) && Extends(h, Record(h, i, sv, a))
    ensures RoundsSafe(voters, Record(h, i, sv, a))
  {
    var h' := Record(h, i, sv, a);
    if a.StartRound? {
      CommittedSafe(voters, h, sv.log[..sv.commit], sv.term);
      SafeGrows(voters, h, h', sv.term, sv.commit);
    }
    hide Safe, CommitOk, MergeAt;
    forall k | k in h'.rounds
      ensures k.0 in h'.logs && Safe(voters, h', k.0, h'.rounds[k].readIndex)
      ensures LogHasTerm(h'.logs[k.0], h'.rounds[k].readIndex, k.0)
    {
      if k in h.rounds {
        SafeGrows(voters, h, h', k.0, h.rounds[k].readIndex);
        HasTermGrows(h.logs[k.0], h'.logs[k.0], h.rounds[k].readIndex, k.0);
      }
    }
  }

  lemma HasTermGrows(log: seq<Entry>, log': seq<Entry>, upto: nat, term: Term)
    requires LogHasTerm(log, upto, term) && log <= log'
    ensures LogHasTerm(log', upto, term)
  {
    var k :| 0 <= k < upto && k < |log| && log[k].term == term;
    assert log'[k].term == term;
  }

  /** What the step needs of the state before and after it, gathered. */
  lemma CommitPre(s: State, h: History, i: NodeId, a: Action)
    requires Enabled(s, i, a) && ElectionInv(s, h) && LogInv(s, h) && HeldInv(s, h) && CommitInv(s, h)
    requires ElectionInv(Apply(s, i, a), Record(h, i, s.servers[i], a))
    requires HeldInv(Apply(s, i, a), Record(h, i, s.servers[i], a))
    ensures Fits(s.servers[i], a) && PhaseOk(i, s.servers[i], h) && ServerLogOk(s.servers[i], h)
    ensures Sound(s.voters, h) && LeaderLogsOk(h) && h.logs.Keys == h.elections.Keys
    ensures a.Accept? ==> AppendMessageOk(a.m, h)
    ensures a.Accept? || a.Ack? ==> CommitMessageOk(s.voters, a.m, h)
    ensures CommitOk(s.voters, s.servers[i], h)
    ensures Apply(s, i, a).servers[i] == Effect(i, s.servers[i], a).0
    ensures PhaseOk(i, Effect(i, s.servers[i], a).0, Record(h, i, s.servers[i], a))
    ensures HeldBy(i, Effect(i, s.servers[i], a).0) <= Record(h, i, s.servers[i], a).held
  {
    Delivered(s, i, a);
    EnabledSelf(s, h, i, a);
    hide Record, Effect, VoteOk, PhaseOk, VotesJustified, BackedBy, VoteMessagesOk, ServerLogOk, AppendMessageOk;
    hide CampaignLogsOk, VotedLogsOk, LeaderLogsOk, HeldGenuine, VotersKept, CommitOk, CommitMessageOk, RoundsSafe,
        Kept, HeldBy;
    var s', h' := Apply(s, i, a), Record(h, i, s.servers[i], a);
    assert PhaseOk(i, s'.servers[i], h');
    assert HeldOk(i, s'.servers[i], h');
  }

  lemma CommitInvStep(s: State, h: History, i: NodeId, a: Action)
    requires Enabled(s, i, a) && ElectionInv(s, h) && LogInv(s, h) && HeldInv(s, h) && CommitInv(s, h)
    requires Truthful(Some(h.logs), s.servers[i], a)
    requires Extends(h, Record(h, i, s.servers[i], a))
    requires ElectionInv(Apply(s, i, a), Record(h, i, s.servers[i], a))
    requires HeldInv(Apply(s, i, a), Record(h, i, s.servers[i], a))
    ensures CommitInv(Apply(s, i, a), Record(h, i, s.servers[i], a))
  {
    hide Can, Truthful, Record, Effect, ElectionInv, LogInv, HeldInv, Sound, PhaseOk, ServerLogOk, LeaderLogsOk;
    hide AppendMessageOk, CommitMessageOk, CommitOk, RoundsSafe, Extends, HeldBy;
    CommitPre(s, h, i, a);
    var sv, s', h' := s.servers[i], Apply(s, i, a), Record(h, i, s.servers[i], a);
    SelfCommitOk(s.voters, s.net, i, sv, a, h);
    RoundsSafeStep(s.voters, s.net, i, sv, a, h);
    forall j | j in s'.servers ensures CommitOk(s.voters, s'.servers[j], h') {
      if j != i {
        CommitOkGrows(s.voters, s.servers[j], h, h');
      }
    }
    forall m | m in s'.net ensures CommitMessageOk(s.voters, m, h') {
      if m in s.net {
        CommitMessageGrows(s.voters, m, h, h');
      } else {
        CommitMessageOut(s.voters, s.net, i, sv, a, h, m);
      }
    }
  }

  // ----- Read rounds -----

  /** An echo of an older round never carries the numbers of a round of a later term: the
      later term has an entry of its own below its read index, the older one cannot. */
  lemma NoEcho(voters: set<NodeId>, h: History, to: NodeId, t: Term, id: nat)
    requires Sound(voters, h) && RoundsSafe(voters, h) && (t, id) in h.rounds && t in h.elections
    ensures !Echo(to, t, id, h.rounds[(t, id)].readIndex, h)
  {
    hide Sound, Safe;
    var r := h.rounds[(t, id)].readIndex;
    if Echo(to, t, id, r, h) {
      var w: Term :| w < t && Numbered(to, w, id, r, h);
      assert Safe(voters, h, w, r);
      OlderReadBelow(voters, h, w, t, r);
    }
  }

  lemma OlderReadBelow(voters: set<NodeId>, h: History, w: Term, t: Term, r: LogIndex)
    requires Sound(voters, h) && Safe(voters, h, w, r) && w < t && t in h.elections && t in h.logs
    ensures !LogHasTerm(h.logs[t], r, t)
  {
    hide Sound, HeldByMajority;
    if r != 0 {
      var t': Term, n': LogIndex :| t' <= w && r <= n' && HeldByMajority(voters, h, t', n');
      LaterLogHas(voters, h, t', n', t);
      LeaderTermsBounded(voters, h, t');
      assert forall k :: 0 <= k < r ==> h.logs[t][k] == h.logs[t'][k];
    }
  }

  lemma LeaderTermsBounded(voters: set<NodeId>, h: History, t: Term)
    requires Sound(voters, h) && t in h.logs
    ensures WellFormed(h.logs[t], t)
  {
    hide ElectionsBacked, VotesJustified, CampaignLogsOk, VotedLogsOk, HeldGenuine, VotersKept;
    assert LeaderLogOk(t, h);
  }
}
