/** What a run of the protocol leaves behind: votes, campaigns, elections, the log of each
    term's leader, which server held which entry in the entry's own term, how far each
    term's leader committed, and read rounds with their confirmations.
    A history is never part of the system; it is rebuilt from a run to state and prove
    what the run keeps. */
module History {
  import opened Types
  import opened RaftLog
  import opened Event
  import opened Protocol

  /** `early`: the vote was cast before its term had a leader. */
  datatype VoteRec = VoteRec(candidate: NodeId, log: seq<Entry>, early: bool)

  datatype Election = Election(leader: NodeId, voters: set<NodeId>)

  /** `elected` are the terms that had a leader when the round was requested. */
  datatype RoundRec = RoundRec(readIndex: LogIndex, elected: set<Term>)

  datatype History = History(
    voted: map<(NodeId, Term), VoteRec>,
    campaigns: map<(NodeId, Term), seq<Entry>>,
    elections: map<Term, Election>,
    logs: map<Term, seq<Entry>>,
    held: set<(NodeId, Term, LogIndex)>,
    marks: map<Term, LogIndex>,
    rounds: map<(Term, nat), RoundRec>,
    confirmed: set<(Term, nat)>)

  const BLANK := History(map[], map[], map[], map[], {}, map[], map[], {})

  /** The entries of its own current term that a server holds. */
  function HeldBy(i: NodeId, sv: Server): set<(NodeId, Term, LogIndex)> {
    set k | 1 <= k <= |sv.log| && sv.log[k - 1].term == sv.term :: (i, sv.term, k)
  }

  function Record(h: History, i: NodeId, sv: Server, a: Action): History
    requires Fits(sv, a)
  {
    var sv' := Effect(i, sv, a).0;
    match a
    case Campaign(_) =>
      var key := (i, sv.term + 1);
      h.(voted := h.voted[key := VoteRec(i, sv.log, sv.term + 1 !in h.elections)],
         campaigns := h.campaigns[key := sv.log])
    case Grant(m) =>
      var key := (i, sv.term);
      if key in h.voted then h
      else h.(voted := h.voted[key := VoteRec(m.from, sv.log, sv.term !in h.elections)])
    case Win(_) =>
      h.(elections := h.elections[sv.term := Election(i, sv.phase.votes)],
         logs := h.logs[sv.term := sv.log])
    case Propose(_) =>
      h.(logs := h.logs[sv.term := sv'.log], held := h.held + HeldBy(i, sv'))
    case Accept(_) => h.(held := h.held + HeldBy(i, sv'))
    case Commit(index) => h.(marks := h.marks[sv.term := index])
    case StartRound =>
      h.(rounds := h.rounds[(sv.term, sv.phase.nextRead) := RoundRec(sv.commit, h.elections.Keys)])
    case Confirm => h.(confirmed := h.confirmed + {(sv.term, sv.phase.pending.value.id)})
    case _ => h
  }

  /** History only grows: nothing recorded is ever altered, except that leader logs get
      longer and commit marks rise. */
  ghost predicate Extends(h: History, h': History) {
    && (forall k :: k in h.voted ==> k in h'.voted && h'.voted[k] == h.voted[k])
    && (forall k :: k in h.campaigns ==> k in h'.campaigns && h'.campaigns[k] == h.campaigns[k])
    && (forall t :: t in h.elections ==> t in h'.elections && h'.elections[t] == h.elections[t])
    && (forall t :: t in h.logs ==> t in h'.logs && h.logs[t] <= h'.logs[t])
    && h.held <= h'.held
    && (forall t :: t in h.marks ==> t in h'.marks && h.marks[t] <= h'.marks[t])
    && (forall k :: k in h.rounds ==> k in h'.rounds && h'.rounds[k] == h.rounds[k])
    && (forall k :: k in h'.rounds && k !in h.rounds ==> h.elections.Keys <= h'.rounds[k].elected)
    && h.confirmed <= h'.confirmed
  }

  /** Whatever is new was contributed by server `i`. */
  ghost predicate OnlyBy(i: NodeId, h: History, h': History) {
    VotesOnlyBy(i, h, h') && TermsOnlyBy(i, h, h')
  }

  ghost predicate VotesOnlyBy(i: NodeId, h: History, h': History) {
    && (forall k :: k in h'.voted && k !in h.voted ==> k.0 == i)
    && (forall k :: k in h'.campaigns && k !in h.campaigns ==> k.0 == i)
    && (forall t :: t in h'.elections && t !in h.elections ==> h'.elections[t].leader == i)
  }

  ghost predicate LedBy(i: NodeId, t: Term, h: History) {
    t in h.elections && h.elections[t].leader == i
  }

  ghost predicate TermsOnlyBy(i: NodeId, h: History, h': History) {
    && (forall t :: t in h'.logs && (t !in h.logs || h'.logs[t] != h.logs[t]) ==> LedBy(i, t, h'))
    && (forall t :: t in h'.marks && (t !in h.marks || h'.marks[t] != h.marks[t]) ==> LedBy(i, t, h'))
    && (forall k :: k in h'.rounds && k !in h.rounds ==> LedBy(i, k.0, h'))
    && (forall k :: k in h'.confirmed && k !in h.confirmed ==> LedBy(i, k.0, h'))
  }

  // ----- Election bookkeeping -----

  ghost predicate VoteOk(i: NodeId, sv: Server, h: History) {
    && (sv.vote.None? ==> (i, sv.term) !in h.voted)
    && (sv.vote.Some? ==> (i, sv.term) in h.voted && h.voted[(i, sv.term)].candidate == sv.vote.value)
    && (forall t :: (i, t) in h.voted ==> t <= sv.term)
    && (forall t :: (i, t) in h.campaigns ==> t <= sv.term)
  }

  ghost predicate PhaseOk(i: NodeId, sv: Server, h: History) {
    match sv.phase
    case Idle => true
    case Campaigning(votes) =>
      && (i, sv.term) in h.campaigns && h.campaigns[(i, sv.term)] == sv.log
      && (sv.term in h.elections ==> h.elections[sv.term].leader != i)
      && (forall v :: v in votes ==> (v, sv.term) in h.voted && h.voted[(v, sv.term)].candidate == i)
    case Leading(_, _, _, _) =>
      && sv.term in h.elections && h.elections[sv.term].leader == i
      && sv.term in h.logs && h.logs[sv.term] == sv.log
      && (sv.term in h.marks ==> h.marks[sv.term] == sv.commit)
      && RoundsKnown(sv.term, sv.phase, h)
  }

  /** The rounds of a leader's term are those it numbered, all confirmed but the pending one. */
  ghost predicate RoundsKnown(t: Term, phase: Phase, h: History)
    requires phase.Leading?
  {
    && 1 <= phase.nextRead
    && (phase.pending.Some? ==> 1 <= phase.pending.value.id < phase.nextRead)
    && (forall n :: (t, n) in h.rounds || (t, n) in h.confirmed ==> n < phase.nextRead)
    && (phase.pending.Some? ==> (t, phase.pending.value.id) !in h.confirmed)
    && (forall n :: 1 <= n < phase.nextRead ==> (t, n) in h.rounds)
    && (forall n :: 1 <= n < phase.nextRead && !(phase.pending.Some? && phase.pending.value.id == n) ==>
          (t, n) in h.confirmed)
  }

  ghost predicate VoteMessageOk(m: Message, h: History) {
    && (m.body.VoteRequest? ==>
          && (m.from, m.term) in h.campaigns
          && m.body.lastLogIndex == |h.campaigns[(m.from, m.term)]|
          && m.body.lastLogTerm == LastTerm(h.campaigns[(m.from, m.term)]))
    && (m.body == VoteResponse(true) ==>
          && (m.from, m.term) in h.voted
          && h.voted[(m.from, m.term)].candidate == m.to)
  }

  ghost predicate VotesJustified(h: History) {
    forall k :: k in h.voted ==>
      && (h.voted[k].candidate, k.1) in h.campaigns
      && UpToDate(h.campaigns[(h.voted[k].candidate, k.1)], h.voted[k].log)
      && (k.1 !in h.elections ==> h.voted[k].early)
  }

  ghost predicate BackedBy(voters: set<NodeId>, t: Term, e: Election, h: History) {
    && (e.leader, t) in h.campaigns
    && Majority(voters, e.voters)
    && forall v :: v in e.voters ==>
         && (v, t) in h.voted
         && h.voted[(v, t)].candidate == e.leader
         && h.voted[(v, t)].early
  }

  ghost predicate ElectionsBacked(voters: set<NodeId>, h: History) {
    && TermsElected(h)
    && (forall t :: t in h.elections ==> BackedBy(voters, t, h.elections[t], h))
  }

  /** Logs, commit marks and rounds are those of elected leaders. */
  ghost predicate TermsElected(h: History) {
    && h.logs.Keys == h.elections.Keys
    && h.marks.Keys <= h.elections.Keys
    && (forall k :: k in h.rounds || k in h.confirmed ==> k.0 in h.elections)
  }

  ghost predicate ServersOk(s: State, h: History) {
    forall i :: i in s.servers ==> VoteOk(i, s.servers[i], h) && PhaseOk(i, s.servers[i], h)
  }

  ghost predicate VoteMessagesOk(s: State, h: History) {
    forall m :: m in s.net ==> VoteMessageOk(m, h)
  }

  ghost predicate ElectionInv(s: State, h: History) {
    && ServersOk(s, h)
    && VoteMessagesOk(s, h)
    && VotesJustified(h)
    && ElectionsBacked(s.voters, h)
  }

  /** A term that has a leader cannot elect another: both majorities share a voter, and
      that voter's one vote in the term went to one of them. */
  lemma FreshWin(voters: set<NodeId>, i: NodeId, sv: Server, h: History)
    requires sv.phase.Campaigning? && Majority(voters, sv.phase.votes)
    requires PhaseOk(i, sv, h) && ElectionsBacked(voters, h)
    ensures sv.term !in h.elections
  {
    if sv.term in h.elections {
      assert BackedBy(voters, sv.term, h.elections[sv.term], h);
      var v := MajoritiesShare(voters, sv.phase.votes, h.elections[sv.term].voters);
    }
  }

  lemma RecordExtends(i: NodeId, sv: Server, a: Action, h: History)
    requires Fits(sv, a)
    requires VoteOk(i, sv, h) && PhaseOk(i, sv, h)
    requires a.Win? ==> sv.term !in h.elections && sv.term !in h.logs
    requires a.Commit? ==> sv.commit < a.index
    ensures Extends(h, Record(h, i, sv, a))
  {
    hide Record, VoteOk, PhaseOk;
    RecordKeepsVotes(i, sv, a, h);
    RecordKeepsTerms(i, sv, a, h);
  }

  lemma RecordKeepsVotes(i: NodeId, sv: Server, a: Action, h: History)
    requires Fits(sv, a) && VoteOk(i, sv, h)
    requires a.Win? ==> sv.term !in h.elections
    ensures var h' := Record(h, i, sv, a);
            && (forall k :: k in h.voted ==> k in h'.voted && h'.voted[k] == h.voted[k])
            && (forall k :: k in h.campaigns ==> k in h'.campaigns && h'.campaigns[k] == h.campaigns[k])
            && (forall t :: t in h.elections ==> t in h'.elections && h'.elections[t] == h.elections[t])
  {
    hide MergeAt, HeldBy, VoteRequests, LastTerm;
  }

  lemma RecordKeepsTerms(i: NodeId, sv: Server, a: Action, h: History)
    requires Fits(sv, a) && PhaseOk(i, sv, h)
    requires a.Win? ==> sv.term !in h.logs
    requires a.Commit? ==> sv.commit < a.index
    ensures var h' := Record(h, i, sv, a);
            && (forall t :: t in h.logs ==> t in h'.logs && h.logs[t] <= h'.logs[t])
            && h.held <= h'.held
            && (forall t :: t in h.marks ==> t in h'.marks && h.marks[t] <= h'.marks[t])
            && (forall k :: k in h.rounds ==> k in h'.rounds && h'.rounds[k] == h.rounds[k])
            && (forall k :: k in h'.rounds && k !in h.rounds ==> h.elections.Keys <= h'.rounds[k].elected)
            && h.confirmed <= h'.confirmed
  {
    hide MergeAt, HeldBy, VoteRequests, LastTerm;
  }

  lemma RecordVotes(i: NodeId, sv: Server, a: Action, h: History)
    requires Fits(sv, a)
    ensures VotesOnlyBy(i, h, Record(h, i, sv, a))
  {
    hide MergeAt, HeldBy, VoteRequests, LastTerm;
  }

  lemma RecordTerms(i: NodeId, sv: Server, a: Action, h: History)
    requires Fits(sv, a) && PhaseOk(i, sv, h)
    ensures TermsOnlyBy(i, h, Record(h, i, sv, a))
  {
    hide MergeAt, HeldBy, VoteRequests, LastTerm, RoundsKnown;
  }

  lemma RecordGrows(voters: set<NodeId>, net: set<Message>, i: NodeId, sv: Server, a: Action, h: History)
    requires Can(voters, net, i, sv, a)
    requires VoteOk(i, sv, h) && PhaseOk(i, sv, h) && ElectionsBacked(voters, h)
    ensures Extends(h, Record(h, i, sv, a)) && OnlyBy(i, h, Record(h, i, sv, a))
  {
    hide BackedBy, Record, Extends, VotesOnlyBy, TermsOnlyBy, VoteOk, PhaseOk;
    if a.Win? {
      FreshWin(voters, i, sv, h);
    }
    RecordExtends(i, sv, a, h);
    RecordVotes(i, sv, a, h);
    RecordTerms(i, sv, a, h);
  }

  /** What one server does leaves the bookkeeping of the others alone. */
  lemma OthersOk(i: NodeId, j: NodeId, sv: Server, h: History, h': History)
    requires i != j && VoteOk(j, sv, h) && PhaseOk(j, sv, h)
    requires Extends(h, h') && OnlyBy(i, h, h')
    ensures VoteOk(j, sv, h') && PhaseOk(j, sv, h')
  {
  }

  lemma SelfVoteOk(voters: set<NodeId>, net: set<Message>, i: NodeId, sv: Server, a: Action, h: History)
    requires Can(voters, net, i, sv, a) && VoteOk(i, sv, h)
    ensures VoteOk(i, Effect(i, sv, a).0, Record(h, i, sv, a))
  {
  }

  lemma SelfRoundsKnown(i: NodeId, sv: Server, a: Action, h: History)
    requires Fits(sv, a) && Effect(i, sv, a).0.phase.Leading?
    requires if a.Win? then forall n: nat :: (sv.term, n) !in h.rounds && (sv.term, n) !in h.confirmed
        else RoundsKnown(sv.term, sv.phase, h)
    ensures RoundsKnown(Effect(i, sv, a).0.term, Effect(i, sv, a).0.phase, Record(h, i, sv, a))
  {
    hide MergeAt, HeldBy, VoteRequests, LastTerm;
  }

  lemma SelfPhaseOk(voters: set<NodeId>, net: set<Message>, i: NodeId, sv: Server, a: Action, h: History)
    requires Can(voters, net, i, sv, a) && VoteOk(i, sv, h) && PhaseOk(i, sv, h)
    requires a.CountVote? ==> VoteMessageOk(a.m, h)
    requires ElectionsBacked(voters, h)
    ensures PhaseOk(i, Effect(i, sv, a).0, Record(h, i, sv, a))
  {
    hide MergeAt, HeldBy, VoteRequests, LastTerm, RoundsKnown;
    if a.Win? {
      FreshWin(voters, i, sv, h);
    }
    if Effect(i, sv, a).0.phase.Leading? {
      SelfRoundsKnown(i, sv, a, h);
    }
  }

  lemma VotesJustifiedStep(voters: set<NodeId>, net: set<Message>, i: NodeId, sv: Server, a: Action, h: History)
    requires Can(voters, net, i, sv, a) && VotesJustified(h) && VoteOk(i, sv, h)
    requires a.Grant? ==> VoteMessageOk(a.m, h)
    ensures VotesJustified(Record(h, i, sv, a))
  {
  }

  lemma BackedByGrows(voters: set<NodeId>, t: Term, e: Election, h: History, h': History)
    requires BackedBy(voters, t, e, h) && Extends(h, h')
    ensures BackedBy(voters, t, e, h')
  {
  }

  lemma WinBacked(voters: set<NodeId>, i: NodeId, sv: Server, h: History)
    requires sv.phase.Campaigning? && Majority(voters, sv.phase.votes)
    requires PhaseOk(i, sv, h) && VotesJustified(h) && sv.term !in h.elections
    ensures BackedBy(voters, sv.term, Election(i, sv.phase.votes), h)
  {
  }

  lemma ElectionsBackedStep(voters: set<NodeId>, net: set<Message>, i: NodeId, sv: Server, a: Action, h: History)
    requires Can(voters, net, i, sv, a) && PhaseOk(i, sv, h)
    requires VotesJustified(h) && ElectionsBacked(voters, h)
    requires Extends(h, Record(h, i, sv, a))
    ensures ElectionsBacked(voters, Record(h, i, sv, a))
  {
    TermsElectedStep(i, sv, a, h);
    hide BackedBy, MergeAt, HeldBy, VoteRequests, LastTerm, RoundsKnown, TermsElected;
    var h' := Record(h, i, sv, a);
    forall t | t in h'.elections ensures BackedBy(voters, t, h'.elections[t], h') {
      if t in h.elections {
        BackedByGrows(voters, t, h.elections[t], h, h');
      } else {
        WinBacked(voters, i, sv, h);
        BackedByGrows(voters, t, h'.elections[t], h, h');
      }
    }
  }

  lemma TermsElectedStep(i: NodeId, sv: Server, a: Action, h: History)
    requires Fits(sv, a) && PhaseOk(i, sv, h) && TermsElected(h)
    ensures TermsElected(Record(h, i, sv, a))
  {
    hide MergeAt, HeldBy, VoteRequests, LastTerm, RoundsKnown;
  }

  lemma VoteMessageOut(voters: set<NodeId>, net: set<Message>, i: NodeId, sv: Server, a: Action, h: History, m: Message)
    requires Can(voters, net, i, sv, a) && VoteOk(i, sv, h)
    requires m in Effect(i, sv, a).1
    ensures VoteMessageOk(m, Record(h, i, sv, a))
  {
  }

  lemma VoteMessageGrows(m: Message, h: History, h': History)
    requires VoteMessageOk(m, h) && Extends(h, h')
    ensures VoteMessageOk(m, h')
  {
  }

  lemma ElectionInvStep(s: State, h: History, i: NodeId, a: Action)
    requires Enabled(s, i, a) && ElectionInv(s, h)
    ensures Extends(h, Record(h, i, s.servers[i], a)) && OnlyBy(i, h, Record(h, i, s.servers[i], a))
    ensures ElectionInv(Apply(s, i, a), Record(h, i, s.servers[i], a))
  {
    EnabledSelf(s, h, i, a);
    hide Can, Record, VoteOk, PhaseOk, VoteMessageOk, VotesJustified, ElectionsBacked, Extends, OnlyBy, Effect;
    var sv, s', h' := s.servers[i], Apply(s, i, a), Record(h, i, s.servers[i], a);
    RecordGrows(s.voters, s.net, i, sv, a, h);
    Delivered(s, i, a);
    SelfVoteOk(s.voters, s.net, i, sv, a, h);
    SelfPhaseOk(s.voters, s.net, i, sv, a, h);
    forall j | j in s'.servers ensures VoteOk(j, s'.servers[j], h') && PhaseOk(j, s'.servers[j], h') {
      if j != i {
        OthersOk(i, j, s.servers[j], h, h');
      }
    }
    VoteMessagesStep(s, h, i, a);
    VotesJustifiedStep(s.voters, s.net, i, sv, a, h);
    ElectionsBackedStep(s.voters, s.net, i, sv, a, h);
  }

  lemma VoteMessagesStep(s: State, h: History, i: NodeId, a: Action)
    requires Enabled(s, i, a) && Fits(s.servers[i], a) && VoteMessagesOk(s, h) && VoteOk(i, s.servers[i], h)
    requires Extends(h, Record(h, i, s.servers[i], a))
    ensures VoteMessagesOk(Apply(s, i, a), Record(h, i, s.servers[i], a))
  {
    hide Can, Record, VoteOk, VoteMessageOk, Extends, Effect;
    var s', h' := Apply(s, i, a), Record(h, i, s.servers[i], a);
    forall m | m in s'.net ensures VoteMessageOk(m, h') {
      if m in s.net {
        VoteMessageGrows(m, h, h');
      } else {
        VoteMessageOut(s.voters, s.net, i, s.servers[i], a, h, m);
      }
    }
  }

  lemma EnabledSelf(s: State, h: History, i: NodeId, a: Action)
    requires Enabled(s, i, a) && ElectionInv(s, h)
    ensures Fits(s.servers[i], a) && VoteOk(i, s.servers[i], h) && PhaseOk(i, s.servers[i], h)
    ensures ElectionsBacked(s.voters, h)
  {
    hide VotesJustified, ElectionsBacked, VoteMessagesOk;
  }

  /** The message an action consumes has been sent. */
  lemma Delivered(s: State, i: NodeId, a: Action)
    requires Enabled(s, i, a)
    ensures a.Grant? || a.CountVote? || a.Accept? || a.Ack? || a.ReplyRead? || a.AckRead? ==> a.m in s.net
  {
  }
}
