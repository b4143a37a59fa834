/** Leader Completeness over real replication: an entry that a majority held while in the
    entry's own term is in the log of every later leader. */
module Completeness {
  import opened Types
  import opened RaftLog
  import opened Event
  import opened Protocol
  import opened History
  import opened LogMatching

  /** The log a leader campaigned with. */
  function Base(h: History, t: Term): seq<Entry> {
    if t in h.elections && (h.elections[t].leader, t) in h.campaigns then h.campaigns[(h.elections[t].leader, t)]
    else []
  }

  /** `log` begins with the first `n` entries of the leader log of `t`. */
  predicate Has(log: seq<Entry>, h: History, t: Term, n: LogIndex) {
    t in h.logs && n <= |h.logs[t]| && h.logs[t][..n] <= log
  }

  /** Some later leader, up to term `bound`, was elected without those entries. */
  ghost predicate Broken(h: History, t: Term, n: LogIndex, bound: Term) {
    exists w :: w in h.elections && t < w <= bound && !Has(Base(h, w), h, t, n)
  }

  ghost predicate Kept(log: seq<Entry>, h: History, t: Term, n: LogIndex, bound: Term) {
    Has(log, h, t, n) || Broken(h, t, n, bound)
  }

  /** What is recorded as held is an entry of its own term in that term's leader log. */
  ghost predicate HeldGenuine(h: History) {
    forall x :: x in h.held ==>
      x.1 in h.logs && 1 <= x.2 <= |h.logs[x.1]| && h.logs[x.1][x.2 - 1].term == x.1
  }

  ghost predicate HeldOk(i: NodeId, sv: Server, h: History) {
    && HeldBy(i, sv) <= h.held
    && forall x :: x in h.held && x.0 == i ==> x.1 <= sv.term && Kept(sv.log, h, x.1, x.2, sv.term)
  }

  /** A voter that held an entry still had it when it voted early in a later term. */
  ghost predicate VotersKept(h: History) {
    forall x, k :: x in h.held && k in h.voted && x.0 == k.0 && x.1 < k.1 && h.voted[k].early ==>
      Kept(h.voted[k].log, h, x.1, x.2, k.1 - 1)
  }

  ghost predicate HeldInv(s: State, h: History) {
    && (forall i :: i in s.servers ==> HeldOk(i, s.servers[i], h))
    && HeldGenuine(h)
    && VotersKept(h)
  }

  ghost predicate AllHeld(q: set<NodeId>, h: History, t: Term, n: LogIndex) {
    forall v :: v in q ==> (v, t, n) in h.held
  }

  ghost predicate HeldByMajority(voters: set<NodeId>, h: History, t: Term, n: LogIndex) {
    exists q: set<NodeId> :: Majority(voters, q) && AllHeld(q, h, t, n)
  }

  // ----- The theorem -----

  /** A log at least as up to date as one that has the entries has them too, provided the
      leaders in between have them. */
  lemma UpToDateHas(c: seq<Entry>, vl: seq<Entry>, h: History, t: Term, n: LogIndex)
    requires UpToDate(c, vl) && Has(vl, h, t, n) && n >= 1
    requires Conforms(c, h) && Conforms(vl, h) && LeaderLogsOk(h) && CampaignLogsOk(h)
    requires h.logs[t][n - 1].term == t
    requires LastTerm(c) > t ==> Has(Base(h, LastTerm(c)), h, t, n)
    ensures Has(c, h, t, n)
  {
    assert vl[n - 1] == h.logs[t][..n][n - 1];
    TermsAscend(vl, h, n - 1, |vl| - 1);
    WholeConforms(vl, h);
    hide Base, LeaderLogsOk, CampaignLogsOk, Conforms;
    assert c != [];
    WholeConforms(c, h);
    if LastTerm(c) != LastTerm(vl) {
      PastBase(c, h);
    }
  }

  lemma WholeConforms(log: seq<Entry>, h: History)
    requires log != [] && Conforms(log, h)
    ensures LastTerm(log) in h.logs && log <= h.logs[LastTerm(log)]
  {
    assert log[..|log| - 1 + 1] == log;
  }

  /** A log that ends in term `u` reaches past what `u`'s leader campaigned with. */
  lemma PastBase(c: seq<Entry>, h: History)
    requires c != [] && Conforms(c, h) && LeaderLogsOk(h) && CampaignLogsOk(h)
    ensures LastTerm(c) in h.logs && Base(h, LastTerm(c)) <= h.logs[LastTerm(c)]
    ensures |Base(h, LastTerm(c))| < |c|
  {
    WholeConforms(c, h);
    var u := LastTerm(c);
    var base := Base(h, u);
    assert LeaderLogOk(u, h);
    assert WellFormed(base, u - 1);
    assert forall k :: 0 <= k < |base| ==> h.logs[u][k].term < u;
    assert h.logs[u][|c| - 1].term == u;
  }

  lemma {:induction false} LeaderHas(voters: set<NodeId>, h: History, t: Term, n: LogIndex, u: Term)
    requires ElectionsBacked(voters, h) && VotesJustified(h)
    requires CampaignLogsOk(h) && VotedLogsOk(h) && LeaderLogsOk(h)
    requires HeldGenuine(h) && VotersKept(h)
    requires HeldByMajority(voters, h, t, n)
    requires t < u && u in h.elections
    ensures Has(Base(h, u), h, t, n)
    decreases u
  {
    hide ElectionsBacked, VotesJustified, CampaignLogsOk, VotedLogsOk, LeaderLogsOk, HeldGenuine, VotersKept, Has,
        Kept, Base, BackedBy;
    var v := SharedVoter(voters, h, t, n, u);
    VoterHad(h, v, t, n, u);
    if Broken(h, t, n, u - 1) {
      var w :| w in h.elections && t < w <= u - 1 && !Has(Base(h, w), h, t, n);
      LeaderHas(voters, h, t, n, w);
    }
    var c := Base(h, u);
    CandidateLog(voters, h, v, t, n, u);
    if LastTerm(c) > t {
      LeaderHas(voters, h, t, n, LastTerm(c));
    }
    UpToDateHas(c, h.voted[(v, u)].log, h, t, n);
  }

  lemma SharedVoter(voters: set<NodeId>, h: History, t: Term, n: LogIndex, u: Term) returns (v: NodeId)
    requires ElectionsBacked(voters, h) && HeldByMajority(voters, h, t, n) && u in h.elections
    ensures (v, t, n) in h.held && v in h.elections[u].voters
    ensures (v, u) in h.voted && h.voted[(v, u)].early && h.voted[(v, u)].candidate == h.elections[u].leader
  {
    var q: set<NodeId> :| Majority(voters, q) && AllHeld(q, h, t, n);
    assert BackedBy(voters, u, h.elections[u], h);
    v := MajoritiesShare(voters, q, h.elections[u].voters);
  }

  lemma VoterHad(h: History, v: NodeId, t: Term, n: LogIndex, u: Term)
    requires VotersKept(h) && (v, t, n) in h.held && t < u
    requires (v, u) in h.voted && h.voted[(v, u)].early
    ensures Has(h.voted[(v, u)].log, h, t, n) || Broken(h, t, n, u - 1)
  {
    var x := (v, t, n);
    assert Kept(h.voted[(v, u)].log, h, x.1, x.2, u - 1);
  }

  lemma CandidateLog(voters: set<NodeId>, h: History, v: NodeId, t: Term, n: LogIndex, u: Term)
    requires ElectionsBacked(voters, h) && VotesJustified(h)
    requires CampaignLogsOk(h) && VotedLogsOk(h) && LeaderLogsOk(h) && HeldGenuine(h)
    requires u in h.elections && (v, t, n) in h.held
    requires (v, u) in h.voted && h.voted[(v, u)].candidate == h.elections[u].leader
    ensures UpToDate(Base(h, u), h.voted[(v, u)].log)
    ensures Conforms(Base(h, u), h) && Conforms(h.voted[(v, u)].log, h)
    ensures n >= 1 && t in h.logs && n <= |h.logs[t]| && h.logs[t][n - 1].term == t
    ensures LastTerm(Base(h, u)) < u
    ensures LastTerm(Base(h, u)) > 0 ==> LastTerm(Base(h, u)) in h.elections
  {
    assert BackedBy(voters, u, h.elections[u], h);
    var key := (h.elections[u].leader, u);
    assert key in h.campaigns && WellFormed(h.campaigns[key], u - 1);
    var x := (v, t, n);
    assert x.1 in h.logs;
  }

  // ----- Holding is kept -----

  lemma HasGrows(log: seq<Entry>, h: History, h': History, t: Term, n: LogIndex)
    requires Extends(h, h') && t in h.logs && n <= |h.logs[t]|
    ensures Has(log, h', t, n) == Has(log, h, t, n)
  {
    assert h'.logs[t][..n] == h.logs[t][..n];
  }

  lemma BrokenGrows(h: History, h': History, t: Term, n: LogIndex, bound: Term, bound': Term)
    requires Extends(h, h') && LeaderLogsOk(h) && h.logs.Keys == h.elections.Keys
    requires t in h.logs && n <= |h.logs[t]| && bound <= bound'
    requires Broken(h, t, n, bound)
    ensures Broken(h', t, n, bound')
  {
    var w :| w in h.elections && t < w <= bound && !Has(Base(h, w), h, t, n);
    assert LeaderLogOk(w, h);
    assert Base(h', w) == Base(h, w);
    HasGrows(Base(h, w), h, h', t, n);
  }

  lemma KeptGrows(log: seq<Entry>, h: History, h': History, t: Term, n: LogIndex, bound: Term, bound': Term)
    requires Extends(h, h') && LeaderLogsOk(h) && h.logs.Keys == h.elections.Keys
    requires t in h.logs && n <= |h.logs[t]| && bound <= bound'
    requires Kept(log, h, t, n, bound)
    ensures Kept(log, h', t, n, bound')
  {
    hide Has, Broken, Extends, LeaderLogsOk;
    if Has(log, h, t, n) {
      HasGrows(log, h, h', t, n);
    } else {
      BrokenGrows(h, h', t, n, bound, bound');
    }
  }

  /** Accepting entries of the current term's leader loses a held entry only if that
      leader, or one before it, was elected without it. */
  lemma AcceptKeeps(sv: Server, log': seq<Entry>, m: Message, h: History, t: Term, n: LogIndex)
    requires m.body.AppendRequest? && AppendMessageOk(m, h) && m.term == sv.term
    requires Conforms(sv.log, h) && LeaderLogsOk(h) && h.logs.Keys == h.elections.Keys
    requires m.body.prevLogIndex == 0 || TermAt(sv.log, m.body.prevLogIndex) == m.body.prevLogTerm
    requires log' == MergeAt(sv.log, m.body.prevLogIndex, m.body.entries)
    requires t in h.logs && n <= |h.logs[t]| && t <= sv.term
    requires Has(sv.log, h, t, n)
    ensures Kept(log', h, t, n, sv.term)
  {
    AcceptMatches(sv.log, m, h);
    assert LeaderLogOk(sv.term, h);
    hide MergeAt, LeaderLogsOk, Conforms, AppendMessageOk, TermAt, WellFormed;
    var leader, end := h.logs[sv.term], m.body.prevLogIndex + |m.body.entries|;
    if log' != sv.log {
      assert log' == leader[..end];
      if t < sv.term && !Has(Base(h, sv.term), h, t, n) {
        assert Broken(h, t, n, sv.term);
      } else {
        assert h.logs[t][..n] <= leader;
        assert leader[..n] == h.logs[t][..n];
        LongerPrefix(leader, sv.log, n, end);
      }
    }
  }

  lemma LongerPrefix(leader: seq<Entry>, log: seq<Entry>, n: nat, end: nat)
    requires n <= |leader| && end <= |leader|
    requires leader[..n] <= log && !(leader[..end] <= log)
    ensures n < end
  {
  }

  lemma NewlyHeld(i: NodeId, sv: Server, h: History, x: (NodeId, Term, LogIndex))
    requires Conforms(sv.log, h) && x in HeldBy(i, sv)
    ensures x.0 == i && x.1 == sv.term && x.1 in h.logs && 1 <= x.2 <= |h.logs[x.1]|
    ensures h.logs[x.1][x.2 - 1].term == x.1 && Has(sv.log, h, x.1, x.2)
  {
    var k := x.2;
    assert sv.log[k - 1].term == sv.term;
    assert sv.log[..k - 1 + 1] <= h.logs[sv.term];
    assert h.logs[sv.term][k - 1] == sv.log[..k][k - 1];
    assert h.logs[sv.term][..k] == sv.log[..k];
  }

  /** One entry held before the step is still kept by the server that moved. */
  lemma SelfKeeps(voters: set<NodeId>, net: set<Message>, i: NodeId, sv: Server, a: Action, h: History,
                  x: (NodeId, Term, LogIndex))
    requires Can(voters, net, i, sv, a)
    requires ServerLogOk(sv, h) && LeaderLogsOk(h) && h.logs.Keys == h.elections.Keys
    requires a.Accept? ==> AppendMessageOk(a.m, h)
    requires HeldOk(i, sv, h) && HeldGenuine(h) && x in h.held && x.0 == i
    ensures x.1 <= Effect(i, sv, a).0.term
    ensures Kept(Effect(i, sv, a).0.log, h, x.1, x.2, Effect(i, sv, a).0.term)
  {
    LogMoves(voters, net, i, sv, a);
    var sv' := Effect(i, sv, a).0;
    assert Kept(sv.log, h, x.1, x.2, sv.term);
    hide Can, Effect, HeldOk, HeldGenuine, AppendMessageOk, LeaderLogsOk, Conforms, MergeAt, WellFormed, TermAt, Kept;
    if a.Accept? {
      HeldInRange(h, x);
      AcceptKeepsAll(sv, sv'.log, a.m, h, x.1, x.2);
    } else {
      KeptLonger(sv.log, sv'.log, h, x.1, x.2, sv.term, sv'.term);
    }
  }

  /** A log is only ever extended, except by accepting entries; the term never falls. */
  lemma LogMoves(voters: set<NodeId>, net: set<Message>, i: NodeId, sv: Server, a: Action)
    requires Can(voters, net, i, sv, a)
    ensures var sv' := Effect(i, sv, a).0;
            && sv.term <= sv'.term
            && (!a.Accept? ==> sv.log <= sv'.log)
            && (a.Accept? ==>
                  && sv'.term == sv.term == a.m.term
                  && sv'.log == MergeAt(sv.log, a.m.body.prevLogIndex, a.m.body.entries)
                  && (a.m.body.prevLogIndex == 0 || TermAt(sv.log, a.m.body.prevLogIndex) == a.m.body.prevLogTerm))
  {
    hide MergeAt, LogHasTerm, HoldersOf;
  }

  lemma KeptLonger(log: seq<Entry>, log': seq<Entry>, h: History, t: Term, n: LogIndex, bound: Term, bound': Term)
    requires Kept(log, h, t, n, bound) && log <= log' && bound <= bound'
    ensures Kept(log', h, t, n, bound')
  {
  }

  lemma AcceptKeepsAll(sv: Server, log': seq<Entry>, m: Message, h: History, t: Term, n: LogIndex)
    requires m.body.AppendRequest? && AppendMessageOk(m, h) && m.term == sv.term
    requires Conforms(sv.log, h) && LeaderLogsOk(h) && h.logs.Keys == h.elections.Keys
    requires m.body.prevLogIndex == 0 || TermAt(sv.log, m.body.prevLogIndex) == m.body.prevLogTerm
    requires log' == MergeAt(sv.log, m.body.prevLogIndex, m.body.entries)
    requires t in h.logs && n <= |h.logs[t]| && t <= sv.term
    requires Kept(sv.log, h, t, n, sv.term)
    ensures Kept(log', h, t, n, sv.term)
  {
    hide MergeAt, AppendMessageOk, LeaderLogsOk, Conforms;
    if !Broken(h, t, n, sv.term) {
      AcceptKeeps(sv, log', m, h, t, n);
    }
  }

  lemma HeldInRange(h: History, x: (NodeId, Term, LogIndex))
    requires HeldGenuine(h) && x in h.held
    ensures x.1 in h.logs && 1 <= x.2 <= |h.logs[x.1]|
  {
  }

  lemma SelfHeldOk(voters: set<NodeId>, net: set<Message>, i: NodeId, sv: Server, a: Action, h: History)
    requires Can(voters, net, i, sv, a)
    requires ServerLogOk(sv, h) && LeaderLogsOk(h) && h.logs.Keys == h.elections.Keys
    requires a.Accept? ==> AppendMessageOk(a.m, h)
    requires HeldOk(i, sv, h) && HeldGenuine(h)
    requires Extends(h, Record(h, i, sv, a))
    requires ServerLogOk(Effect(i, sv, a).0, Record(h, i, sv, a))
    ensures HeldOk(i, Effect(i, sv, a).0, Record(h, i, sv, a))
  {
    var sv', h' := Effect(i, sv, a).0, Record(h, i, sv, a);
    HeldRecorded(i, sv, a, h);
    hide Can, Record, Effect, LeaderLogsOk, HeldGenuine, Kept, Extends, AppendMessageOk;
    forall x | x in h'.held && x.0 == i ensures x.1 <= sv'.term && Kept(sv'.log, h', x.1, x.2, sv'.term) {
      if x in h.held {
        SelfKeeps(voters, net, i, sv, a, h, x);
        HeldInRange(h, x);
        KeptGrows(sv'.log, h, h', x.1, x.2, sv'.term, sv'.term);
      } else {
        NewlyHeld(i, sv', h', x);
        HasKept(sv'.log, h', x.1, x.2, sv'.term);
      }
    }
  }

  lemma HasKept(log: seq<Entry>, h: History, t: Term, n: LogIndex, bound: Term)
    requires Has(log, h, t, n)
    ensures Kept(log, h, t, n, bound)
  {
  }

  /** The record adds what the server now holds, and nothing else. */
  lemma HeldRecorded(i: NodeId, sv: Server, a: Action, h: History)
    requires Fits(sv, a) && HeldOk(i, sv, h)
    requires a.Raise? ==> a.term > sv.term
    requires WellFormed(sv.log, sv.term)
    ensures h.held <= Record(h, i, sv, a).held <= h.held + HeldBy(i, Effect(i, sv, a).0)
    ensures HeldBy(i, Effect(i, sv, a).0) <= Record(h, i, sv, a).held
  {
    hide Kept, MergeAt;
    var sv' := Effect(i, sv, a).0;
    if a.Raise? || a.Campaign? {
      assert HeldBy(i, sv') == {};
    } else if !a.Propose? && !a.Accept? {
      assert sv'.log == sv.log && sv'.term == sv.term;
    }
  }

  lemma HeldGenuineStep(i: NodeId, sv: Server, a: Action, h: History)
    requires Fits(sv, a) && HeldOk(i, sv, h) && HeldGenuine(h)
    requires a.Raise? ==> a.term > sv.term
    requires WellFormed(sv.log, sv.term) && Extends(h, Record(h, i, sv, a))
    requires Conforms(Effect(i, sv, a).0.log, Record(h, i, sv, a))
    ensures HeldGenuine(Record(h, i, sv, a))
  {
    var sv', h' := Effect(i, sv, a).0, Record(h, i, sv, a);
    HeldRecorded(i, sv, a, h);
    hide Record, Effect, HeldOk, Conforms;
    forall x | x in h'.held
      ensures x.1 in h'.logs && 1 <= x.2 <= |h'.logs[x.1]| && h'.logs[x.1][x.2 - 1].term == x.1
    {
      if x !in h.held {
        NewlyHeld(i, sv', h', x);
      }
    }
  }

  lemma OtherHeldOk(i: NodeId, j: NodeId, sv: Server, h: History, h': History)
    requires i != j && HeldOk(j, sv, h) && HeldGenuine(h)
    requires LeaderLogsOk(h) && h.logs.Keys == h.elections.Keys && Extends(h, h')
    requires forall x :: x in h'.held && x !in h.held ==> x.0 == i
    ensures HeldOk(j, sv, h')
  {
    hide LeaderLogsOk, Kept;
    forall x | x in h'.held && x.0 == j ensures x.1 <= sv.term && Kept(sv.log, h', x.1, x.2, sv.term) {
      KeptGrows(sv.log, h, h', x.1, x.2, sv.term, sv.term);
    }
  }

  /** A new early vote is backed by what the voter keeps; an old one stays backed. */
  lemma VotersKeptStep(voters: set<NodeId>, net: set<Message>, i: NodeId, sv: Server, a: Action, h: History)
    requires Can(voters, net, i, sv, a)
    requires VoteOk(i, sv, h) && HeldOk(i, sv, h) && HeldGenuine(h) && VotersKept(h)
    requires LeaderLogsOk(h) && h.logs.Keys == h.elections.Keys
    requires WellFormed(sv.log, sv.term) && Extends(h, Record(h, i, sv, a))
    ensures VotersKept(Record(h, i, sv, a))
  {
    var h' := Record(h, i, sv, a);
    HeldRecorded(i, sv, a, h);
    NewVote(i, sv, a, h);
    hide Can, Record, Effect, LeaderLogsOk, Kept;
    forall x, k | x in h'.held && k in h'.voted && x.0 == k.0 && x.1 < k.1 && h'.voted[k].early
      ensures Kept(h'.voted[k].log, h', x.1, x.2, k.1 - 1)
    {
      if k !in h.voted {
        EarlyVoteKept(sv.log, h, x.1, x.2, sv.term, k.1);
      }
      HeldInRange(h, x);
      KeptGrows(h'.voted[k].log, h, h', x.1, x.2, k.1 - 1, k.1 - 1);
    }
  }

  lemma EarlyVoteKept(log: seq<Entry>, h: History, t: Term, n: LogIndex, bound: Term, u: Term)
    requires Kept(log, h, t, n, bound) && bound <= u && u !in h.elections && u > 0
    ensures Kept(log, h, t, n, u - 1)
  {
    hide Has, Base;
  }

  /** The only vote a step adds is the moving server's own, with its current log, in its
      term or the next; entries held in the new record were held before if older. */
  lemma NewVote(i: NodeId, sv: Server, a: Action, h: History)
    requires Fits(sv, a) && VoteOk(i, sv, h)
    requires a.Raise? ==> a.term > sv.term
    ensures var h' := Record(h, i, sv, a);
            && (forall k :: k in h'.voted && k !in h.voted ==>
                  && k.0 == i && sv.term <= k.1 && h'.voted[k].log == sv.log
                  && (h'.voted[k].early ==> k.1 !in h.elections)
                  && h'.held == h.held)
            && (h'.held != h.held ==> h'.voted == h.voted && Effect(i, sv, a).0.term == sv.term)
  {
    hide MergeAt;
  }

  lemma HeldInvStep(s: State, h: History, i: NodeId, a: Action)
    requires Enabled(s, i, a) && ElectionInv(s, h) && LogInv(s, h) && HeldInv(s, h)
    requires Extends(h, Record(h, i, s.servers[i], a))
    requires ServerLogOk(Apply(s, i, a).servers[i], Record(h, i, s.servers[i], a))
    ensures HeldInv(Apply(s, i, a), Record(h, i, s.servers[i], a))
  {
    hide Can, Record, Effect, Extends, ElectionInv, ServerLogOk, PhaseOk, VoteOk, HeldOk, HeldGenuine, VotersKept;
    hide AppendMessageOk, CampaignLogsOk, VotedLogsOk, LeaderLogsOk;
    HeldPre(s, h, i, a);
    var sv, s', h' := s.servers[i], Apply(s, i, a), Record(h, i, s.servers[i], a);
    SelfHeldOk(s.voters, s.net, i, sv, a, h);
    HeldGenuineStep(i, sv, a, h);
    VotersKeptStep(s.voters, s.net, i, sv, a, h);
    HeldRecorded(i, sv, a, h);
    forall j | j in s'.servers ensures HeldOk(j, s'.servers[j], h') {
      if j != i {
        NewHeldOwner(i, s'.servers[i], h, h');
        OtherHeldOk(i, j, s.servers[j], h, h');
      }
    }
  }

  lemma NewHeldOwner(i: NodeId, sv': Server, h: History, h': History)
    requires h'.held <= h.held + HeldBy(i, sv')
    ensures forall x :: x in h'.held && x !in h.held ==> x.0 == i
  {
  }

  lemma HeldPre(s: State, h: History, i: NodeId, a: Action)
    requires Enabled(s, i, a) && ElectionInv(s, h) && LogInv(s, h)
    requires ServerLogOk(Apply(s, i, a).servers[i], Record(h, i, s.servers[i], a))
    ensures Fits(s.servers[i], a) && (a.Raise? ==> a.term > s.servers[i].term)
    ensures VoteOk(i, s.servers[i], h) && ServerLogOk(s.servers[i], h)
        && WellFormed(s.servers[i].log, s.servers[i].term)
    ensures h.logs.Keys == h.elections.Keys
    ensures a.Accept? ==> AppendMessageOk(a.m, h)
    ensures Conforms(Effect(i, s.servers[i], a).0.log, Record(h, i, s.servers[i], a))
    ensures Apply(s, i, a).servers[i] == Effect(i, s.servers[i], a).0
  {
    hide Record, Effect, WellFormed, Conforms, AppendMessageOk, CampaignLogsOk, VotedLogsOk, LeaderLogsOk,
        VotesJustified, VoteMessagesOk, VoteOk, PhaseOk;
    Delivered(s, i, a);
  }
}
