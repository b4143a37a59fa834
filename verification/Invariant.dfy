/** Everything the protocol keeps, in one place, carried along chains of steps. */
module Invariant {
  import opened Types
  import opened RaftLog
  import opened Event
  import opened Protocol
  import opened History
  import opened LogMatching
  import opened Completeness
  import opened ReadIndex
  import opened CommitSafety
  import opened ReadSafety
  import Refinement

  /** `strict` adds what holds when every acknowledgement is truthful. */
  ghost predicate Inv(strict: bool, s: State, h: History) {
    && ElectionInv(s, h) && LogInv(s, h) && HeldInv(s, h) && ReadInv(s, h) && MarkInv(s, h)
    && ConfirmsSound(h)
    && (strict ==> CommitInv(s, h) && MarksHeld(s.voters, h))
  }

  lemma InitialInv(strict: bool, s: State)
    requires Initial(s)
    ensures Inv(strict, s, BLANK)
  {
  }

  lemma InvStep(strict: bool, s: State, h: History, i: NodeId, a: Action)
    requires Enabled(s, i, a) && Inv(strict, s, h)
    requires strict ==> Truthful(Some(h.logs), s.servers[i], a)
    ensures Fits(s.servers[i], a)
    ensures Extends(h, Record(h, i, s.servers[i], a))
    ensures Inv(strict, Apply(s, i, a), Record(h, i, s.servers[i], a))
  {
    hide Can, Effect, Record, Extends, ElectionInv, LogInv, HeldInv, ReadInv, MarkInv, CommitInv, MarksHeld,
        ConfirmsSound, Truthful;
    hide PhaseOk, VoteOk, ElectionsBacked, ServerLogOk, CommitOk, OnlyBy;
    EnabledSelf(s, h, i, a);
    var sv, s', h' := s.servers[i], Apply(s, i, a), Record(h, i, s.servers[i], a);
    ElectionInvStep(s, h, i, a);
    LogInvStep(s, h, i, a);
    LogOkOf(s', h', i);
    HeldInvStep(s, h, i, a);
    ReadInvStep(s, h, i, a);
    MarkInvStep(s, h, i, a);
    ConfirmsStep(s, h, i, a);
    if strict {
      CommitInvStep(s, h, i, a);
      CommitOkOf(s, h, i);
      MarksHeldStep(s.voters, s.net, i, sv, a, h);
    }
  }

  lemma LogOkOf(s: State, h: History, i: NodeId)
    requires LogInv(s, h) && i in s.servers
    ensures ServerLogOk(s.servers[i], h)
  {
    hide ServerLogOk, AppendMessageOk, CampaignLogsOk, VotedLogsOk, LeaderLogsOk;
  }

  lemma CommitOkOf(s: State, h: History, i: NodeId)
    requires CommitInv(s, h) && i in s.servers
    ensures CommitOk(s.voters, s.servers[i], h)
  {
    hide CommitOk, CommitMessageOk, RoundsSafe;
  }

  lemma ExtendsThen(a: History, b: History, c: History)
    requires Extends(a, b) && Extends(b, c)
    ensures Extends(a, c)
  {
  }

  lemma ExtendsSelf(a: History)
    ensures Extends(a, a)
  {
  }

  /** The history knows at least the leader logs in `lead`. */
  ghost predicate Knows(h: History, lead: Option<LeaderLogs>) {
    lead.Some? ==> forall t :: t in lead.value ==> t in h.logs && lead.value[t] <= h.logs[t]
  }

  lemma KnowsGrows(h: History, h': History, lead: Option<LeaderLogs>)
    requires Knows(h, lead) && Extends(h, h')
    ensures Knows(h', lead)
  {
  }

  lemma TruthfulKnown(h: History, lead: Option<LeaderLogs>, sv: Server, a: Action)
    requires lead.Some? && Knows(h, lead) && Truthful(lead, sv, a)
    ensures Truthful(Some(h.logs), sv, a)
  {
    hide MergeAt;
  }

  /** Whoever has led a term and leads it now has led it all along, with a rising commit index. */
  ghost predicate LedSince(i: NodeId, sv: Server, sv': Server, h: History) {
    forall t :: LedBy(i, t, h) && StillLeads(t, sv') ==> StillLeads(t, sv) && sv.commit <= sv'.commit
  }

  /** What is new belongs to the term that the server leads in the end: its log and its
      rounds, whose index is a commit index in between. */
  ghost predicate NewOf(sv: Server, sv': Server, h: History, h': History) {
    && (forall t :: t in h'.logs && (t !in h.logs || h'.logs[t] != h.logs[t]) ==> StillLeads(t, sv'))
    && (forall k :: k in h'.rounds && k !in h.rounds ==> NewRound(sv, sv', k.0, k.1, h'))
  }

  ghost predicate NewRound(sv: Server, sv': Server, t: Term, id: nat, h: History)
    requires (t, id) in h.rounds
  {
    && StillLeads(t, sv') && id >= 1 && h.rounds[(t, id)].readIndex <= sv'.commit
    && (StillLeads(t, sv) ==> sv.commit <= h.rounds[(t, id)].readIndex)
  }

  lemma ActionLedSince(voters: set<NodeId>, net: set<Message>, i: NodeId, sv: Server, a: Action, h: History)
    requires Can(voters, net, i, sv, a) && PhaseOk(i, sv, h) && ElectionsBacked(voters, h)
    ensures LedSince(i, sv, Effect(i, sv, a).0, h)
  {
    hide MergeAt, BackedBy, RoundsKnown, VoteRequests;
    if a.Win? {
      FreshWin(voters, i, sv, h);
    }
  }

  /** What one action may add. */
  ghost predicate Added(i: NodeId, sv: Server, a: Action, mid: Server, h: History, h': History)
    requires Fits(sv, a)
  {
    && (forall t :: t in h'.logs && (t !in h.logs || h'.logs[t] != h.logs[t]) ==>
          (a.Win? || a.Propose?) && t == sv.term)
    && (forall k :: k in h'.rounds && k !in h.rounds ==>
          a.StartRound? && k.0 == sv.term && k.1 >= 1 && h'.rounds[k].readIndex == sv.commit)
    && (sv.phase.Leading? ==> LedBy(i, sv.term, h))
    && (a.StartRound? ==> mid.commit == sv.commit)
  }

  lemma ActionAdds(i: NodeId, sv: Server, a: Action, h: History)
    requires Fits(sv, a) && PhaseOk(i, sv, h)
    ensures Added(i, sv, a, Effect(i, sv, a).0, h, Record(h, i, sv, a))
  {
    hide MergeAt, HeldBy, VoteRequests;
  }

  /** What one action adds, then what the rest of the chain adds. */
  lemma NewThen(i: NodeId, sv: Server, a: Action, mid: Server, sv': Server, h: History, h1: History, h': History)
    requires Fits(sv, a) && Steady(sv, a, sv') && Added(i, sv, a, mid, h, h1) && LedSince(i, sv, mid, h)
    requires LedSince(i, mid, sv', h1) && NewOf(mid, sv', h1, h') && Extends(h, h1) && Extends(h1, h')
    ensures LedSince(i, sv, sv', h) && NewOf(sv, sv', h, h')
  {
    forall k | k in h'.rounds && k !in h.rounds ensures NewRound(sv, sv', k.0, k.1, h') {
      if StillLeads(k.0, sv) {
        assert LedBy(i, k.0, h);
      }
    }
  }

  /** A chain of steps of one server carries the invariant, with a longer history. */
  lemma {:induction false} ChainInv(lead: Option<LeaderLogs>, s: State, h: History, i: NodeId, acts: seq<Action>,
                                    sv': Server, net': set<Message>)
    returns (h': History)
    requires i in s.servers && Inv(lead.Some?, s, h) && Knows(h, lead)
    requires Refinement.Chain(lead, s.voters, s.net, i, s.servers[i], acts, sv', net')
    ensures Extends(h, h') && s.servers[i].term <= sv'.term
    ensures LedSince(i, s.servers[i], sv', h) && NewOf(s.servers[i], sv', h, h')
    ensures Inv(lead.Some?, State(s.voters, s.servers[i := sv'], net'), h')
    decreases |acts|
  {
    hide Can, Effect, Record, Extends, Inv, Truthful, MergeAt, TermAt, Knows, Steady, PhaseOk;
    hide ElectionsBacked, LedSince, NewOf, Added;
    if acts == [] {
      h' := h;
      ExtendsSelf(h);
      NothingNew(i, sv', h);
      assert s.servers[i := sv'] == s.servers;
    } else {
      var a := acts[0];
      if lead.Some? {
        TruthfulKnown(h, lead, s.servers[i], a);
      }
      InvStep(lead.Some?, s, h, i, a);
      LogMoves(s.voters, s.net, i, s.servers[i], a);
      PhaseOkOf(lead.Some?, s, h, i);
      ActionLedSince(s.voters, s.net, i, s.servers[i], a, h);
      var mid := Apply(s, i, a);
      var h1 := Record(h, i, s.servers[i], a);
      KnowsGrows(h, h1, lead);
      h' := ChainInv(lead, mid, h1, i, acts[1..], sv', net');
      ExtendsThen(h, h1, h');
      ActionAdds(i, s.servers[i], a, h);
      NewThen(i, s.servers[i], a, mid.servers[i], sv', h, h1, h');
      assert mid.servers[i := sv'] == s.servers[i := sv'];
    }
  }

  lemma NothingNew(i: NodeId, sv: Server, h: History)
    ensures LedSince(i, sv, sv, h) && NewOf(sv, sv, h, h)
  {
  }

  lemma PhaseOkOf(strict: bool, s: State, h: History, i: NodeId)
    requires Inv(strict, s, h) && i in s.servers
    ensures PhaseOk(i, s.servers[i], h) && ElectionsBacked(s.voters, h)
  {
    hide LogInv, HeldInv, ReadInv, MarkInv, ConfirmsSound, CommitInv, MarksHeld;
    hide VoteOk, PhaseOk, VoteMessagesOk, VotesJustified, ElectionsBacked;
  }

  lemma ReachesInv(lead: Option<LeaderLogs>, s: State, h: History, i: NodeId, sv': Server, net': set<Message>)
    returns (h': History)
    requires i in s.servers && Inv(lead.Some?, s, h) && Knows(h, lead)
    requires Refinement.Reaches(lead, s.voters, s.net, i, s.servers[i], sv', net')
    ensures Extends(h, h') && s.servers[i].term <= sv'.term
    ensures LedSince(i, s.servers[i], sv', h) && NewOf(s.servers[i], sv', h, h')
    ensures Inv(lead.Some?, State(s.voters, s.servers[i := sv'], net'), h')
  {
    hide Refinement.Chain, Inv, Extends, NewOf, Knows, LedSince;
    var acts :| Refinement.Chain(lead, s.voters, s.net, i, s.servers[i], acts, sv', net');
    h' := ChainInv(lead, s, h, i, acts, sv', net');
  }
}
